/** What every run of the ATM and the bank does besides keeping the money: whom it lets in and what it tells them. */
module AtmRuns {
  import opened AtmMessages
  import opened AtmSystem

  // ---------- What the bank reads and sends ----------

  function Count<T>(q: seq<T>, p: T -> bool): nat {
    if q == [] then 0 else (if p(q[0]) then 1 else 0) + Count(q[1..], p)
  }

  lemma {:induction false} CountAdd<T>(a: seq<T>, b: seq<T>, p: T -> bool)
    ensures Count(a + b, p) == Count(a, p) + Count(b, p)
  {
    if a == [] {
      assert a + b == b;
    } else {
      assert (a + b)[1..] == a[1..] + b;
      CountAdd(a[1..], b, p);
    }
  }

  /** The message that leaves the bank's queue in a step. */
  function TakenIn(s: State, a: Action): seq<BankMsg> {
    if |Apply(s, a).toBank| < |s.toBank| then [s.toBank[0]] else []
  }

  /** The messages that a step of the bank adds to the queue of the ATM. */
  function SentIn(s: State, a: Action): seq<AtmMsg> {
    var s' := Apply(s, a);
    if a == BankStep && |s'.toAtm| > |s.toAtm| then s'.toAtm[|s.toAtm|..] else []
  }

  function Taken(s: State, actions: seq<Action>): seq<BankMsg>
    decreases |actions|
  {
    if actions == [] then [] else TakenIn(s, actions[0]) + Taken(Apply(s, actions[0]), actions[1..])
  }

  function Sent(s: State, actions: seq<Action>): seq<AtmMsg>
    decreases |actions|
  {
    if actions == [] then [] else SentIn(s, actions[0]) + Sent(Apply(s, actions[0]), actions[1..])
  }

  predicate AsksRightPin(m: BankMsg) {
    m.VerifyPin? && m.pin == RIGHT_PIN
  }

  predicate AsksWrongPin(m: BankMsg) {
    m.VerifyPin? && m.pin != RIGHT_PIN
  }

  predicate LetsIn(m: AtmMsg) {
    m.PinVerified?
  }

  predicate TurnsAway(m: AtmMsg) {
    m.PinIncorrect?
  }

  lemma CountOne<T>(x: T, p: T -> bool)
    ensures Count([x], p) == if p(x) then 1 else 0
  {
    assert [x][1..] == [];
  }

  /** One step: what the bank takes and what it sends. */
  lemma StepAnswers(s: State, a: Action)
    ensures Count(SentIn(s, a), LetsIn) == Count(TakenIn(s, a), AsksRightPin)
    ensures Count(SentIn(s, a), TurnsAway) == Count(TakenIn(s, a), AsksWrongPin)
  {
    if a.BankStep? && s.debit.None? && s.toBank != [] && s.bankOpen {
      var m := s.toBank[0];
      var answer := BankAnswer(s.balance, m).0;
      assert TakenIn(s, a) == [m];
      assert SentIn(s, a) == answer;
      CountOne(m, AsksRightPin);
      CountOne(m, AsksWrongPin);
      if answer != [] {
        assert answer == [answer[0]];
        CountOne(answer[0], LetsIn);
        CountOne(answer[0], TurnsAway);
      }
    }
  }

  lemma {:induction false} RunAnswers(s: State, actions: seq<Action>)
    ensures Count(Sent(s, actions), LetsIn) == Count(Taken(s, actions), AsksRightPin)
    ensures Count(Sent(s, actions), TurnsAway) == Count(Taken(s, actions), AsksWrongPin)
    decreases |actions|
  {
    hide Apply, SentIn, TakenIn;
    if actions != [] {
      var a, s' := actions[0], Apply(s, actions[0]);
      StepAnswers(s, a);
      RunAnswers(s', actions[1..]);
      CountAdd(SentIn(s, a), Sent(s', actions[1..]), LetsIn);
      CountAdd(SentIn(s, a), Sent(s', actions[1..]), TurnsAway);
      CountAdd(TakenIn(s, a), Taken(s', actions[1..]), AsksRightPin);
      CountAdd(TakenIn(s, a), Taken(s', actions[1..]), AsksWrongPin);
    }
  }

  /** In every run the bank lets in exactly as often as it has read the right pin, and turns away at every other one. */
  lemma PinsAreChecked(actions: seq<Action>)
    ensures Count(Sent(Init(), actions), LetsIn) == Count(Taken(Init(), actions), AsksRightPin)
    ensures Count(Sent(Init(), actions), TurnsAway) == Count(Taken(Init(), actions), AsksWrongPin)
  {
    RunAnswers(Init(), actions);
  }

  // ---------- Who is let in ----------

  /** A session that waited for its pin to be verified may go on. */
  predicate LetInBy(s: State, a: Action) {
    s.atm.phase.VerifyingPin? && Apply(s, a).atm.phase.WaitForAction?
  }

  function Sessions(s: State, actions: seq<Action>): nat
    decreases |actions|
  {
    if actions == [] then 0
    else (if LetInBy(s, actions[0]) then 1 else 0) + Sessions(Apply(s, actions[0]), actions[1..])
  }

  predicate Inside(a: Atm) {
    a.phase.WaitForAction? || a.phase.ProcessWithdrawal? || a.phase.ProcessBalance?
  }

  lemma ReactLetsIn(a: Atm, m: AtmMsg)
    requires React(a, m).Handled?
    ensures var b := React(a, m).atm;
      && (a.phase.VerifyingPin? && b.phase.WaitForAction? ==> m.PinVerified?)
      && (Inside(b) ==> Inside(a) || (a.phase.VerifyingPin? && b.phase.WaitForAction?))
      && (m.WithdrawOK? ==> Inside(a))
  {
  }

  /** Each session let in uses up one answer that lets in. */
  lemma StepSessions(s: State, a: Action)
    ensures (if LetInBy(s, a) then 1 else 0) + Count(Apply(s, a).toAtm, LetsIn)
         <= Count(s.toAtm, LetsIn) + Count(SentIn(s, a), LetsIn)
  {
    var s' := Apply(s, a);
    match a
    case Press(key) =>
      CountAdd(s.toAtm, [key], LetsIn);
      CountOne(key, LetsIn);
    case AtmStep =>
      if s.toAtm != [] && !s.atm.phase.Stopped? {
        if React(s.atm, s.toAtm[0]).Handled? { ReactLetsIn(s.atm, s.toAtm[0]); }
        assert s'.toAtm == s.toAtm[1..];
        hide React;
      }
    case BankStep =>
      assert s'.toAtm == s.toAtm + SentIn(s, a);
      CountAdd(s.toAtm, SentIn(s, a), LetsIn);
    case CloseTheBank =>
  }

  lemma {:induction false} RunSessions(s: State, actions: seq<Action>)
    ensures Sessions(s, actions) + Count(RunFrom(s, actions).toAtm, LetsIn)
         <= Count(s.toAtm, LetsIn) + Count(Sent(s, actions), LetsIn)
    decreases |actions|
  {
    hide Apply, SentIn, LetInBy;
    if actions != [] {
      var a, s' := actions[0], Apply(s, actions[0]);
      StepSessions(s, a);
      RunSessions(s', actions[1..]);
      CountAdd(SentIn(s, a), Sent(s', actions[1..]), LetsIn);
    }
  }

  lemma StepInside(s: State, a: Action)
    ensures var s' := Apply(s, a);
      Inside(s'.atm) || Payments(s'.toUi) != [] ==> Inside(s.atm) || Payments(s.toUi) != [] || LetInBy(s, a)
  {
    if a.AtmStep? && s.toAtm != [] && !s.atm.phase.Stopped? {
      var m := s.toAtm[0];
      if React(s.atm, m).Handled? {
        ReactLetsIn(s.atm, m);
        ReactPays(s.atm, m);
        PaymentsAdd(s.toUi, React(s.atm, m).toUi);
      }
      hide React, Payments;
    }
  }

  lemma {:induction false} RunInside(s: State, actions: seq<Action>)
    ensures var s' := RunFrom(s, actions);
      Inside(s'.atm) || Payments(s'.toUi) != [] ==>
        Inside(s.atm) || Payments(s.toUi) != [] || Sessions(s, actions) > 0
    decreases |actions|
  {
    hide Apply, LetInBy, Inside, Payments;
    if actions != [] {
      StepInside(s, actions[0]);
      RunInside(Apply(s, actions[0]), actions[1..]);
    }
  }

  /**
   * In every run the sessions let in never outnumber the right pins that the bank has read; and nobody may ask for
   * anything, and nothing is paid, before the first of them.
   */
  lemma SessionsNeedRightPins(actions: seq<Action>)
    ensures Sessions(Init(), actions) <= Count(Taken(Init(), actions), AsksRightPin)
    ensures var s := Run(actions);
      Inside(s.atm) || Payments(s.toUi) != [] ==> Sessions(Init(), actions) > 0
  {
    RunAnswers(Init(), actions);
    RunSessions(Init(), actions);
    RunInside(Init(), actions);
    assert Payments([DisplayEnterCard]) == [] by { PaymentsFirst([DisplayEnterCard]); }
  }

  // ---------- What is shown ----------

  /** `x` was the balance after some of the grants. */
  ghost predicate OnceBalance(granted: seq<nat>, x: nat) {
    exists k :: 0 <= k <= |granted| && x == INITIAL_BALANCE - Sum(granted[..k])
  }

  ghost predicate Truthful(s: State) {
    && (forall m <- s.toAtm :: m.BalanceIs? ==> OnceBalance(s.granted, m.amount))
    && (forall m <- s.toUi :: m.DisplayBalance? ==> OnceBalance(s.granted, m.amount))
  }

  lemma MoreGrants(granted: seq<nat>, g: seq<nat>, x: nat)
    requires OnceBalance(granted, x)
    ensures OnceBalance(granted + g, x)
  {
    var k :| 0 <= k <= |granted| && x == INITIAL_BALANCE - Sum(granted[..k]);
    assert (granted + g)[..k] == granted[..k];
  }

  lemma ReactShows(a: Atm, m: AtmMsg, x: nat)
    requires React(a, m).Handled? && DisplayBalance(x) in React(a, m).toUi
    ensures m == BalanceIs(x)
  {
  }

  lemma AtmTruthful(s: State)
    requires Truthful(s)
    ensures Truthful(AtmTakes(s))
  {
    var s' := AtmTakes(s);
    forall m | m in s'.toUi && m.DisplayBalance? ensures OnceBalance(s'.granted, m.amount) {
      if m !in s.toUi { ReactShows(s.atm, s.toAtm[0], m.amount); }
    }
    hide React, OnceBalance;
  }

  lemma BankTruthful(s: State)
    requires Truthful(s) && Balanced(s)
    ensures Truthful(BankTakes(s))
  {
    var s' := BankTakes(s);
    var more := s'.granted[|s.granted|..];
    assert s'.granted == s.granted + more;
    forall m | m in s'.toAtm && m.BalanceIs? ensures OnceBalance(s'.granted, m.amount) {
      if m in s.toAtm {
        MoreGrants(s.granted, more, m.amount);
      } else {
        assert m.amount == s.balance && s.granted[..|s.granted|] == s.granted;
      }
    }
    forall m | m in s'.toUi && m.DisplayBalance? ensures OnceBalance(s'.granted, m.amount) {
      MoreGrants(s.granted, more, m.amount);
    }
    hide Sum, Unread, Payments;
  }

  lemma {:induction false} RunTruthful(s: State, actions: seq<Action>)
    requires Truthful(s) && Balanced(s)
    ensures Truthful(RunFrom(s, actions))
    decreases |actions|
  {
    hide Apply, Truthful, Balanced;
    if actions != [] {
      var a, s' := actions[0], Apply(s, actions[0]);
      ApplyBalanced(s, a);
      ApplyTruthful(s, a);
      RunTruthful(s', actions[1..]);
    }
  }

  lemma ApplyTruthful(s: State, a: Action)
    requires Truthful(s) && Balanced(s)
    ensures Truthful(Apply(s, a))
  {
    match a
    case AtmStep => hide Truthful; AtmTruthful(s);
    case BankStep => hide Truthful; BankTruthful(s);
    case _ => hide OnceBalance;
  }

  /** Every balance that is displayed in a run was the initial balance less the grants of some moment of that run. */
  lemma DisplayedBalances(actions: seq<Action>, x: nat)
    requires DisplayBalance(x) in Run(actions).toUi
    ensures exists k :: 0 <= k <= |Run(actions).granted| && x == INITIAL_BALANCE - Sum(Run(actions).granted[..k])
  {
    assert Payments([DisplayEnterCard]) == [] by { PaymentsFirst([DisplayEnterCard]); }
    RunTruthful(Init(), actions);
    assert OnceBalance(Run(actions).granted, x);
  }

  // ---------- What is granted ----------

  /**
   * In every run the bank grants a withdrawal if and only if it and all grants before it are covered by the initial
   * balance; then the balance is what is left, and otherwise nothing changes.
   */
  lemma GrantedIffCovered(actions: seq<Action>, w: nat)
    requires var s := Run(actions);
      s.debit.None? && s.bankOpen && s.toBank != [] && s.toBank[0].Withdraw? && s.toBank[0].amount == w
    ensures var s := Run(actions);
      var answered := RunFrom(s, [BankStep]);
      if Sum(s.granted) + w <= INITIAL_BALANCE then
        && answered.toAtm == s.toAtm + [WithdrawOK] && answered.granted == s.granted + [w]
        && Apply(answered, BankStep).balance == INITIAL_BALANCE - Sum(s.granted + [w])
      else
        && answered.toAtm == s.toAtm + [WithdrawDenied] && answered.granted == s.granted
        && answered.balance == s.balance && answered.debit.None?
  {
    var s := Run(actions);
    assert Payments([DisplayEnterCard]) == [] by { PaymentsFirst([DisplayEnterCard]); }
    RunBalanced(Init(), actions);
    assert s.balance + Sum(s.granted) == INITIAL_BALANCE;
    assert Sum(s.granted + [w]) == Sum(s.granted) + w by { assert (s.granted + [w])[..|s.granted|] == s.granted; }
    hide Run, Sum, Unread, Payments;
    assert RunFrom(s, [BankStep]) == Apply(s, BankStep) by { assert [BankStep][1..] == []; }
  }

  // ---------- What the bank is asked ----------

  /** A message of the ATM to the bank, on one of the accounts; a pin has its four digits. */
  predicate ProperRequest(m: BankMsg, accounts: set<string>) {
    match m
    case VerifyPin(account, pin) => account in accounts && |pin| == PIN_LENGTH
    case Withdraw(account, _) => account in accounts
    case GetBalance(account) => account in accounts
    case WithdrawProcessed(account, _) => account in accounts
    case CancelWithdrawal(account, _) => account in accounts
    case CloseBank => true
  }

  /** Only cards of these accounts are inserted. */
  predicate Cards(actions: seq<Action>, accounts: set<string>) {
    forall a <- actions :: a.Press? && a.key.CardInserted? ==> a.key.account in accounts
  }

  ghost predicate Proper(s: State, accounts: set<string>) {
    && (Inside(s.atm) || s.atm.phase.GettingPin? || s.atm.phase.VerifyingPin? ==> s.atm.account in accounts)
    && (s.atm.phase.GettingPin? ==> |s.atm.pin| < PIN_LENGTH)
    && (forall m <- s.toAtm :: m.CardInserted? ==> m.account in accounts)
    && (forall m <- s.toBank :: ProperRequest(m, accounts))
  }

  /** What a message makes the ATM ask: on its own account, and of the amount just pressed or pressed last. */
  lemma ReactAsksProperly(a: Atm, m: AtmMsg, b: BankMsg)
    requires React(a, m).Handled? && b in React(a, m).toBank
    requires a.phase.GettingPin? ==> |a.pin| < PIN_LENGTH
    ensures match b
      case VerifyPin(account, pin) => account == a.account && |pin| == PIN_LENGTH && pin == React(a, m).atm.pin
      case Withdraw(account, w) => account == a.account && m == WithdrawPressed(w)
      case GetBalance(account) => account == a.account && m.BalancePressed?
      case WithdrawProcessed(account, w) => account == a.account && w == a.amount && m.WithdrawOK?
      case CancelWithdrawal(account, w) => account == a.account && w == a.amount && m.CancelPressed?
      case CloseBank => false
    ensures Inside(a) || a.phase.GettingPin?
  {
  }

  lemma ReactKeepsCard(a: Atm, m: AtmMsg)
    requires React(a, m).Handled?
    requires a.phase.GettingPin? ==> |a.pin| < PIN_LENGTH
    ensures var b := React(a, m).atm;
      && (b.phase.GettingPin? ==> |b.pin| < PIN_LENGTH)
      && (Inside(b) || b.phase.GettingPin? || b.phase.VerifyingPin? ==>
            || (m.CardInserted? && b.account == m.account)
            || (b.account == a.account && (Inside(a) || a.phase.GettingPin? || a.phase.VerifyingPin?)))
  {
  }

  lemma ApplyProper(s: State, a: Action, accounts: set<string>)
    requires Proper(s, accounts) && Cards([a], accounts)
    ensures Proper(Apply(s, a), accounts)
  {
    match a
    case Press(key) => assert a in [a];
    case AtmStep =>
      if s.toAtm != [] && !s.atm.phase.Stopped? && React(s.atm, s.toAtm[0]).Handled? {
        var m := s.toAtm[0];
        ReactKeepsCard(s.atm, m);
        forall b | b in React(s.atm, m).toBank ensures ProperRequest(b, accounts) {
          ReactAsksProperly(s.atm, m, b);
        }
      }
      hide React;
    case BankStep =>
    case CloseTheBank =>
  }

  lemma {:induction false} RunProper(s: State, actions: seq<Action>, accounts: set<string>)
    requires Proper(s, accounts) && Cards(actions, accounts)
    ensures Proper(RunFrom(s, actions), accounts)
    decreases |actions|
  {
    hide Proper, Apply;
    if actions != [] {
      assert actions[0] in actions;
      ApplyProper(s, actions[0], accounts);
      RunProper(Apply(s, actions[0]), actions[1..], accounts);
    }
  }

  /**
   * In every run the bank is only asked about accounts whose cards were inserted, and only about pins of four digits.
   */
  lemma RequestsNameTheCard(actions: seq<Action>, accounts: set<string>)
    requires Cards(actions, accounts)
    ensures forall m <- Run(actions).toBank :: ProperRequest(m, accounts)
  {
    RunProper(Init(), actions, accounts);
  }
}
