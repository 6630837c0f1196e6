/**
 * The ATM and the bank as two machines that exchange messages over first-in first-out queues, and a user who presses
 * any keys at any time. Replies carry no request, and a queue drops what its machine has no handler for.
 *
 * `granted` and `lost` are bookkeeping: the amounts of the withdrawals that the bank has allowed, and how many of the
 * answers that allowed one were dropped.
 */
module AtmSystem {
  import opened Options
  import opened AtmMessages

  /** `debit` is the amount that the bank, in the middle of a withdrawal, has yet to take off the balance. */
  datatype State = State(
    atm: Atm,
    balance: nat,
    debit: Option<nat>,
    bankOpen: bool,
    toAtm: seq<AtmMsg>,
    toBank: seq<BankMsg>,
    toUi: seq<UiMsg>,
    granted: seq<nat>,
    lost: nat)

  datatype Action = Press(key: AtmMsg) | AtmStep | BankStep | CloseTheBank

  /** What the user's keys, and the end of the program, send to the ATM. */
  predicate IsKey(m: AtmMsg) {
    m.CardInserted? || m.DigitPressed? || m.ClearLastPressed? || m.CancelPressed? || m.WithdrawPressed?
    || m.BalancePressed? || m.CloseAtm?
  }

  function Init(): State {
    State(Atm(WaitForCard, "", "", 0), INITIAL_BALANCE, None, true, [], [], [DisplayEnterCard], [], 0)
  }

  function AtmTakes(s: State): State {
    if s.toAtm == [] || s.atm.phase.Stopped? then s
    else
      var m, rest := s.toAtm[0], s.toAtm[1..];
      match React(s.atm, m)
      case Dropped => s.(toAtm := rest, lost := s.lost + if m.WithdrawOK? then 1 else 0)
      case Handled(atm, toBank, toUi) =>
        s.(atm := atm, toAtm := rest, toBank := s.toBank + toBank, toUi := s.toUi + toUi)
  }

  /** The bank sends its answer first and takes the amount off the balance in a second step. */
  function BankTakes(s: State): State {
    if s.debit.Some? then
      s.(balance := if s.balance >= s.debit.value then s.balance - s.debit.value else 0, debit := None)
    else if s.toBank == [] || !s.bankOpen then s
    else
      var m, rest := s.toBank[0], s.toBank[1..];
      var (answer, amount) := BankAnswer(s.balance, m);
      var grants := m.Withdraw? && answer == [WithdrawOK];
      s.(toBank := rest, toAtm := s.toAtm + answer, bankOpen := !m.CloseBank?,
         debit := if grants then Some(amount) else None,
         granted := if grants then s.granted + [amount] else s.granted)
  }

  function Apply(s: State, a: Action): State {
    match a
    case Press(key) => if IsKey(key) then s.(toAtm := s.toAtm + [key]) else s
    case AtmStep => AtmTakes(s)
    case BankStep => BankTakes(s)
    case CloseTheBank => s.(toBank := s.toBank + [CloseBank])
  }

  function RunFrom(s: State, actions: seq<Action>): State
    decreases |actions|
  {
    if actions == [] then s else RunFrom(Apply(s, actions[0]), actions[1..])
  }

  function Run(actions: seq<Action>): State {
    RunFrom(Init(), actions)
  }

  // ---------- Money ----------

  function Sum(amounts: seq<nat>): nat {
    if amounts == [] then 0 else Sum(amounts[..|amounts| - 1]) + amounts[|amounts| - 1]
  }

  /** The payments among the messages to the interface. */
  function Payments(ui: seq<UiMsg>): seq<nat> {
    if ui == [] then []
    else Payments(ui[..|ui| - 1]) + (if ui[|ui| - 1].IssueMoney? then [ui[|ui| - 1].amount] else [])
  }

  function Issued(s: State): nat {
    Sum(Payments(s.toUi))
  }

  /** Allowances that the ATM has yet to read. */
  function Unread(q: seq<AtmMsg>): nat {
    if q == [] then 0 else Unread(q[..|q| - 1]) + if q[|q| - 1].WithdrawOK? then 1 else 0
  }

  lemma {:induction false} SumAdd(a: seq<nat>, b: seq<nat>)
    ensures Sum(a + b) == Sum(a) + Sum(b)
    decreases |b|
  {
    if b == [] {
      assert a + b == a;
    } else {
      assert (a + b)[..|a + b| - 1] == a + b[..|b| - 1];
      SumAdd(a, b[..|b| - 1]);
    }
  }

  lemma {:induction false} PaymentsAdd(a: seq<UiMsg>, b: seq<UiMsg>)
    ensures Payments(a + b) == Payments(a) + Payments(b)
    decreases |b|
  {
    if b == [] {
      assert a + b == a;
    } else {
      assert (a + b)[..|a + b| - 1] == a + b[..|b| - 1];
      PaymentsAdd(a, b[..|b| - 1]);
    }
  }

  lemma {:induction false} UnreadAdd(a: seq<AtmMsg>, b: seq<AtmMsg>)
    ensures Unread(a + b) == Unread(a) + Unread(b)
    decreases |b|
  {
    if b == [] {
      assert a + b == a;
    } else {
      assert (a + b)[..|a + b| - 1] == a + b[..|b| - 1];
      UnreadAdd(a, b[..|b| - 1]);
    }
  }

  lemma UnreadOne(m: AtmMsg)
    ensures Unread([m]) == if m.WithdrawOK? then 1 else 0
  {
    assert [m][..0] == [];
  }

  /** What `React` pays out: the amount pressed last, on reading an allowance while it waits for one. */
  lemma ReactPays(a: Atm, m: AtmMsg)
    requires React(a, m).Handled?
    ensures Payments(React(a, m).toUi) == if m.WithdrawOK? then [a.amount] else []
  {
    assert Handle(a, m).Handled?;
    var toUi := React(a, m).toUi;
    assert |toUi| <= 4;
    assert forall i :: 0 <= i < |toUi| ==> (toUi[i].IssueMoney? <==> i == 0 && m.WithdrawOK?);
    PaymentsFirst(toUi);
  }

  lemma {:induction false} PaymentsFirst(ui: seq<UiMsg>)
    requires forall i :: 0 < i < |ui| ==> !ui[i].IssueMoney?
    ensures Payments(ui) == if |ui| > 0 && ui[0].IssueMoney? then [ui[0].amount] else []
    decreases |ui|
  {
    if |ui| > 1 {
      PaymentsFirst(ui[..|ui| - 1]);
    } else if |ui| == 1 {
      assert ui[..0] == [];
    }
  }

  // ---------- What every run keeps ----------

  ghost function Pending(s: State): nat {
    if s.debit.Some? then s.debit.value else 0
  }

  /** The balance accounts for every grant, and every allowance is unread, paid out or lost. */
  ghost predicate Balanced(s: State) {
    && Pending(s) <= s.balance
    && s.balance + Sum(s.granted) == INITIAL_BALANCE + Pending(s)
    && |s.granted| == |Payments(s.toUi)| + Unread(s.toAtm) + s.lost
  }

  lemma AtmBalanced(s: State)
    requires Balanced(s)
    ensures Balanced(AtmTakes(s))
  {
    if s.toAtm != [] && !s.atm.phase.Stopped? {
      var m, rest := s.toAtm[0], s.toAtm[1..];
      assert s.toAtm == [m] + rest;
      UnreadAdd([m], rest);
      UnreadOne(m);
      hide Unread;
      match React(s.atm, m)
      case Dropped =>
      case Handled(_, _, toUi) =>
        ReactPays(s.atm, m);
        PaymentsAdd(s.toUi, toUi);
        hide React, Payments;
    }
  }

  lemma BankBalanced(s: State)
    requires Balanced(s)
    ensures Balanced(BankTakes(s))
  {
    if s.debit.None? && s.toBank != [] && s.bankOpen {
      var m := s.toBank[0];
      var (answer, amount) := BankAnswer(s.balance, m);
      UnreadAdd(s.toAtm, answer);
      if answer != [] { UnreadOne(answer[0]); assert answer == [answer[0]]; }
      SumAdd(s.granted, [amount]);
      assert [amount][..0] == [];
      assert Sum([amount]) == amount;
      hide Unread, Payments;
    }
  }

  lemma ApplyBalanced(s: State, a: Action)
    requires Balanced(s)
    ensures Balanced(Apply(s, a))
  {
    match a
    case Press(key) =>
      UnreadAdd(s.toAtm, [key]);
      UnreadOne(key);
      hide Unread, Payments;
    case AtmStep => hide Balanced; AtmBalanced(s);
    case BankStep => hide Balanced; BankBalanced(s);
    case CloseTheBank =>
  }

  lemma {:induction false} RunBalanced(s: State, actions: seq<Action>)
    requires Balanced(s)
    ensures Balanced(RunFrom(s, actions))
    decreases |actions|
  {
    hide Balanced, Apply;
    if actions != [] {
      ApplyBalanced(s, actions[0]);
      RunBalanced(Apply(s, actions[0]), actions[1..]);
    }
  }

  /**
   * Whatever keys are pressed and however the machines are scheduled: between two messages of the bank, balance and
   * grants add up to the initial balance; and no allowance is paid out twice.
   */
  lemma MoneyIsConserved(actions: seq<Action>)
    ensures var s := Run(actions);
      && (s.debit.None? ==> s.balance + Sum(s.granted) == INITIAL_BALANCE)
      && |s.granted| == |Payments(s.toUi)| + Unread(s.toAtm) + s.lost
  {
    assert Payments([DisplayEnterCard]) == [] by { PaymentsFirst([DisplayEnterCard]); }
    RunBalanced(Init(), actions);
  }
}
