/** `ATM`, `BankMachine` and the dispatching of their messages, as objects that change in place. */
module AtmMachines {
  import opened AtmMessages
  import opened AtmSystem
  import opened AtmRuns

  /** `Queue`, as its one reader and its writers see it. */
  class Mailbox<T(0)> {
    var queue: seq<T>

    constructor ()
      ensures queue == []
    {
      queue := [];
    }

    method Push(m: T)
      modifies this
      ensures queue == old(queue) + [m]
    {
      queue := queue + [m];
    }

    method Pop() returns (m: T)
      requires queue != []
      modifies this
      ensures [m] + queue == old(queue)
    {
      m := queue[0];
      queue := queue[1..];
    }
  }

  /**
   * What one wait of the ATM makes of its queue: the state, the rest of the queue, what was sent, and whether it goes
   * on.
   */
  function Receive(a: Atm, q: seq<AtmMsg>): (Atm, seq<AtmMsg>, seq<BankMsg>, seq<UiMsg>, bool)
    decreases |q|
  {
    if q == [] then (a, [], [], [], false)
    else
      match React(a, q[0])
      case Dropped => Receive(a, q[1..])
      case Handled(b, toBank, toUi) => (b, q[1..], toBank, toUi, true)
  }

  class ATM {
    var phase: Phase
    var account: string
    var pin: string
    var amount: nat
    const incoming: Mailbox<AtmMsg>
    const bank: Mailbox<BankMsg>
    const ui: Mailbox<UiMsg>

    constructor (bank: Mailbox<BankMsg>, ui: Mailbox<UiMsg>)
      ensures Value() == Init().atm && incoming.queue == [] && fresh(incoming)
      ensures this.bank == bank && this.ui == ui
    {
      phase, account, pin, amount := WaitForCard, "", "", 0;
      incoming := new Mailbox();
      this.bank, this.ui := bank, ui;
    }

    function Value(): Atm
      reads this
    {
      Atm(phase, account, pin, amount)
    }

    /** `r` is what `old` became, with what was sent. */
    twostate predicate Became(r: Reaction)
      reads this, bank, ui
    {
      match r
      case Dropped => Value() == old(Value()) && bank.queue == old(bank.queue) && ui.queue == old(ui.queue)
      case Handled(a, toBank, toUi) =>
        Value() == a && bank.queue == old(bank.queue) + toBank && ui.queue == old(ui.queue) + toUi
    }

    method OnWaitForCard(m: AtmMsg) returns (handled: bool)
      requires phase.WaitForCard? && !m.CloseAtm?
      modifies this, bank, ui
      ensures handled == Handle(old(Value()), m).Handled? && Became(Handle(old(Value()), m))
    {
      match m
      case CardInserted(a) =>
        account := a;
        pin := "";
        ui.Push(DisplayEnterPin);
        phase := GettingPin;
        return true;
      case _ => return false;
    }

    method OnGettingPin(m: AtmMsg) returns (handled: bool)
      requires phase.GettingPin? && !m.CloseAtm?
      modifies this, bank, ui
      ensures handled == Handle(old(Value()), m).Handled? && Became(Handle(old(Value()), m))
    {
      match m
      case DigitPressed(digit) =>
        pin := pin + [digit];
        if PIN_LENGTH == |pin| {
          bank.Push(VerifyPin(account, pin));
          phase := VerifyingPin;
        }
        return true;
      case ClearLastPressed =>
        if pin != "" {
          pin := pin[..|pin| - 1];
        }
        return true;
      case CancelPressed =>
        phase := DoneProcessing;
        return true;
      case _ => return false;
    }

    method OnVerifyingPin(m: AtmMsg) returns (handled: bool)
      requires phase.VerifyingPin? && !m.CloseAtm?
      modifies this, bank, ui
      ensures handled == Handle(old(Value()), m).Handled? && Became(Handle(old(Value()), m))
    {
      match m
      case PinVerified =>
        phase := WaitForAction;
        return true;
      case PinIncorrect =>
        ui.Push(DisplayPinIncorrectMessage);
        phase := DoneProcessing;
        return true;
      case CancelPressed =>
        phase := DoneProcessing;
        return true;
      case _ => return false;
    }

    method OnWaitForAction(m: AtmMsg) returns (handled: bool)
      requires phase.WaitForAction? && !m.CloseAtm?
      modifies this, bank, ui
      ensures handled == Handle(old(Value()), m).Handled? && Became(Handle(old(Value()), m))
    {
      match m
      case WithdrawPressed(w) =>
        amount := w;
        bank.Push(Withdraw(account, w));
        phase := ProcessWithdrawal;
        return true;
      case BalancePressed =>
        bank.Push(GetBalance(account));
        phase := ProcessBalance;
        return true;
      case CancelPressed =>
        phase := DoneProcessing;
        return true;
      case _ => return false;
    }

    method OnProcessWithdrawal(m: AtmMsg) returns (handled: bool)
      requires phase.ProcessWithdrawal? && !m.CloseAtm?
      modifies this, bank, ui
      ensures handled == Handle(old(Value()), m).Handled? && Became(Handle(old(Value()), m))
    {
      match m
      case WithdrawOK =>
        ui.Push(IssueMoney(amount));
        bank.Push(WithdrawProcessed(account, amount));
        phase := DoneProcessing;
        return true;
      case WithdrawDenied =>
        ui.Push(DisplayInsufficientFunds);
        phase := DoneProcessing;
        return true;
      case CancelPressed =>
        bank.Push(CancelWithdrawal(account, amount));
        ui.Push(DisplayWithdrawalCancelled);
        phase := DoneProcessing;
        return true;
      case _ => return false;
    }

    method OnProcessBalance(m: AtmMsg) returns (handled: bool)
      requires phase.ProcessBalance? && !m.CloseAtm?
      modifies this, bank, ui
      ensures handled == Handle(old(Value()), m).Handled? && Became(Handle(old(Value()), m))
    {
      match m
      case BalanceIs(a) =>
        ui.Push(DisplayBalance(a));
        phase := WaitForAction;
        return true;
      case CancelPressed =>
        phase := DoneProcessing;
        return true;
      case _ => return false;
    }

    /** The handlers of the current state, tried on one message; a closed queue ends the machine. */
    method Dispatch(m: AtmMsg) returns (handled: bool)
      requires !phase.DoneProcessing? && !phase.Stopped?
      modifies this, bank, ui
      ensures handled == Handle(old(Value()), m).Handled? && Became(Handle(old(Value()), m))
    {
      if m.CloseAtm? {
        phase := Stopped;
        return true;
      }
      match phase
      case WaitForCard => handled := OnWaitForCard(m);
      case GettingPin => handled := OnGettingPin(m);
      case VerifyingPin => handled := OnVerifyingPin(m);
      case WaitForAction => handled := OnWaitForAction(m);
      case ProcessWithdrawal => handled := OnProcessWithdrawal(m);
      case ProcessBalance => handled := OnProcessBalance(m);
    }

    /** The card comes out if the session is over, and the next prompt is shown. */
    method ShowPrompt()
      modifies this, ui
      ensures Value() == Prompt(old(Value())).0 && ui.queue == old(ui.queue) + Prompt(old(Value())).1
    {
      if phase == DoneProcessing {
        ui.Push(EjectCard);
        phase := WaitForCard;
      }
      if phase == WaitForCard {
        ui.Push(DisplayEnterCard);
      } else if phase == WaitForAction {
        ui.Push(DisplayWithdrawalOptions);
      }
    }

    /**
     * `WaitAndDispatch`, and what the run loop does before it waits again: messages without a handler are dropped
     * until one is handled. With nothing left to read the machine is still waiting.
     */
    method WaitAndDispatch() returns (handled: bool)
      requires !phase.DoneProcessing? && !phase.Stopped?
      modifies this, incoming, bank, ui
      ensures var r := Receive(old(Value()), old(incoming.queue));
        && Value() == r.0 && incoming.queue == r.1 && handled == r.4
        && bank.queue == old(bank.queue) + r.2 && ui.queue == old(ui.queue) + r.3
    {
      handled := false;
      while incoming.queue != [] && !handled
        invariant !handled ==>
          && Value() == old(Value()) && bank.queue == old(bank.queue) && ui.queue == old(ui.queue)
          && Receive(Value(), incoming.queue) == Receive(old(Value()), old(incoming.queue))
        invariant handled ==>
          var r := Receive(old(Value()), old(incoming.queue));
          && Value() == r.0 && incoming.queue == r.1 && r.4
          && bank.queue == old(bank.queue) + r.2 && ui.queue == old(ui.queue) + r.3
        decreases |incoming.queue|, !handled
      {
        ghost var a, q := Value(), incoming.queue;
        var m := incoming.Pop();
        assert m == q[0] && incoming.queue == q[1..];
        handled := Dispatch(m);
        if handled {
          ShowPrompt();
        }
      }
    }
  }

  /**
   * What the bank makes of the messages in its queue: the balance, the messages behind a closing one, and whether it is
   * still open; and its answers.
   */
  function Serve(balance: nat, q: seq<BankMsg>): ((nat, seq<BankMsg>, bool), seq<AtmMsg>)
    decreases |q|
  {
    if q == [] then ((balance, [], true), [])
    else if q[0].CloseBank? then ((balance, q[1..], false), [])
    else
      var (answer, amount) := BankAnswer(balance, q[0]);
      var (end, answers) := Serve(balance - amount, q[1..]);
      (end, answer + answers)
  }

  lemma ServeFirst(balance: nat, q: seq<BankMsg>)
    requires q != [] && !q[0].CloseBank?
    ensures var (answer, amount) := BankAnswer(balance, q[0]);
      && amount <= balance
      && Serve(balance, q).0 == Serve(balance - amount, q[1..]).0
      && Serve(balance, q).1 == answer + Serve(balance - amount, q[1..]).1
  {
  }

  lemma ServeEnd(balance: nat, q: seq<BankMsg>)
    ensures q == [] ==> Serve(balance, q) == ((balance, [], true), [])
    ensures q != [] && q[0].CloseBank? ==> Serve(balance, q) == ((balance, q[1..], false), [])
  {
  }

  class BankMachine {
    var balance: nat
    var open: bool

    constructor ()
      ensures balance == INITIAL_BALANCE && open
    {
      balance, open := INITIAL_BALANCE, true;
    }

    /** The handlers of the bank: every message has one, and the answer goes out before the balance changes. */
    method Dispatch(m: BankMsg, atm: Mailbox<AtmMsg>)
      modifies this, atm
      ensures var (answer, amount) := BankAnswer(old(balance), m);
        atm.queue == old(atm.queue) + answer && balance == old(balance) - amount
      ensures open == (old(open) && !m.CloseBank?)
    {
      match m
      case VerifyPin(_, pin) =>
        if pin == RIGHT_PIN {
          atm.Push(PinVerified);
        } else {
          atm.Push(PinIncorrect);
        }
      case Withdraw(_, amount) =>
        if balance >= amount {
          atm.Push(WithdrawOK);
          balance := balance - amount;
        } else {
          atm.Push(WithdrawDenied);
        }
      case GetBalance(_) => atm.Push(BalanceIs(balance));
      case WithdrawProcessed(_, _) =>
      case CancelWithdrawal(_, _) =>
      case CloseBank => open := false;
    }

    /** `Run`: messages are taken in order until the queue is empty, where the machine waits, or closed. */
    method Run(incoming: Mailbox<BankMsg>, atm: Mailbox<AtmMsg>)
      requires open
      modifies this, incoming, atm
      ensures (balance, incoming.queue, open) == Serve(old(balance), old(incoming.queue)).0
      ensures atm.queue == old(atm.queue) + Serve(old(balance), old(incoming.queue)).1
    {
      ghost var ends := Serve(balance, incoming.queue).0;
      ghost var rest := Serve(balance, incoming.queue).1;
      ghost var all := atm.queue + rest;
      hide Serve, BankAnswer;
      while incoming.queue != [] && open
        invariant open ==> Serve(balance, incoming.queue) == (ends, rest)
        invariant !open ==> (balance, incoming.queue, open) == ends && rest == []
        invariant atm.queue + rest == all
        decreases |incoming.queue|
      {
        ghost var b, q, sent := balance, incoming.queue, atm.queue;
        ServeEnd(b, q);
        var m := incoming.Pop();
        assert m == q[0] && incoming.queue == q[1..];
        Dispatch(m, atm);
        if open {
          ServeFirst(b, q);
          rest := Serve(balance, incoming.queue).1;
          assert sent + (BankAnswer(b, m).0 + rest) == (sent + BankAnswer(b, m).0) + rest;
        } else {
          NoAnswer(b);
          rest := [];
        }
      }
      ServeEnd(balance, incoming.queue);
    }
  }

  lemma NoAnswer(balance: nat)
    ensures BankAnswer(balance, CloseBank) == ([], 0)
  {
  }

  // ---------- Nothing is left unread ----------

  /** A wait drops the messages before the first one that has a handler, which it handles; the others stay. */
  lemma {:induction false} ReceiveDropsUnhandled(a: Atm, q: seq<AtmMsg>) returns (i: nat)
    ensures i <= |q| && forall j :: 0 <= j < i ==> React(a, q[j]).Dropped?
    ensures var (b, rest, toBank, toUi, handled) := Receive(a, q);
      && handled == (i < |q|)
      && (handled ==> React(a, q[i]) == Handled(b, toBank, toUi) && rest == q[i + 1..])
      && (!handled ==> b == a && rest == [] && toBank == [] && toUi == [])
    decreases |q|
  {
    i := 0;
    if q != [] && React(a, q[0]).Dropped? {
      var k := ReceiveDropsUnhandled(a, q[1..]);
      i := k + 1;
      forall j | 0 <= j < i ensures React(a, q[j]).Dropped? {
        if j > 0 { assert q[1..][j - 1] == q[j]; }
      }
      if k < |q[1..]| { assert q[1..][k] == q[i] && q[1..][k + 1..] == q[i + 1..]; }
    }
  }

  predicate IsRequest(m: BankMsg) {
    m.VerifyPin? || m.Withdraw? || m.GetBalance?
  }

  /** The bank reads its whole queue, up to a closing message, and answers every request in it. */
  lemma {:induction false} ServeReadsAll(balance: nat, q: seq<BankMsg>) returns (i: nat)
    ensures i <= |q| && forall j :: 0 <= j < i ==> !q[j].CloseBank?
    ensures var ((_, rest, open), answers) := Serve(balance, q);
      && open == (i == |q|) && (i < |q| ==> q[i].CloseBank?)
      && rest == (if i < |q| then q[i + 1..] else [])
      && |answers| == Count(q[..i], IsRequest)
    decreases |q|
  {
    i := 0;
    if q != [] && !q[0].CloseBank? {
      ServeFirst(balance, q);
      var amount := BankAnswer(balance, q[0]).1;
      assert |BankAnswer(balance, q[0]).0| == if IsRequest(q[0]) then 1 else 0;
      hide Serve, BankAnswer;
      var k := ServeReadsAll(balance - amount, q[1..]);
      i := k + 1;
      forall j | 0 <= j < i ensures !q[j].CloseBank? {
        if j > 0 { assert q[1..][j - 1] == q[j]; }
      }
      assert q[..i][0] == q[0] && q[..i][1..] == q[1..][..k];
      if k < |q[1..]| { assert q[1..][k] == q[i] && q[1..][k + 1..] == q[i + 1..]; }
    }
  }

  // ---------- The machines and the system ----------

  function AtmSteps(k: nat): seq<Action> {
    if k == 0 then [] else [AtmStep] + AtmSteps(k - 1)
  }

  /** One wait of the ATM is a run of its steps in the system, one for each message it reads. */
  lemma {:induction false} ReceiveIsSteps(s: State) returns (k: nat)
    requires !s.atm.phase.Stopped?
    ensures var (atm, rest, toBank, toUi, handled) := Receive(s.atm, s.toAtm);
      var s' := RunFrom(s, AtmSteps(k));
      && s'.atm == atm && s'.toAtm == rest && s'.toBank == s.toBank + toBank && s'.toUi == s.toUi + toUi
      && s'.balance == s.balance && s'.debit == s.debit
    decreases |s.toAtm|
  {
    if s.toAtm == [] {
      k := 0;
    } else {
      var s1 := Apply(s, AtmStep);
      if React(s.atm, s.toAtm[0]).Dropped? {
        k := ReceiveIsSteps(s1);
      } else {
        k := 0;
        assert RunFrom(s1, AtmSteps(0)) == s1;
      }
      k := k + 1;
      assert AtmSteps(k)[0] == AtmStep && AtmSteps(k)[1..] == AtmSteps(k - 1);
      hide React;
    }
  }

  function BankSteps(k: nat): seq<Action> {
    if k == 0 then [] else [BankStep] + BankSteps(k - 1)
  }

  lemma BankStepFirst(s: State, k: nat)
    ensures RunFrom(s, BankSteps(k + 1)) == RunFrom(Apply(s, BankStep), BankSteps(k))
  {
    assert BankSteps(k + 1)[0] == BankStep && BankSteps(k + 1)[1..] == BankSteps(k);
  }

  /** From `s` to `s'` the bank sent `answers`, ended as told, and lost what it granted. */
  ghost predicate Served(s: State, s': State, end: (nat, seq<BankMsg>, bool), answers: seq<AtmMsg>) {
    && (s'.balance, s'.toBank, s'.bankOpen) == end && s'.toAtm == s.toAtm + answers
    && s'.debit.None? && s'.atm == s.atm && s'.toUi == s.toUi
    && s'.balance + Sum(s'.granted) == s.balance + Sum(s.granted)
  }

  /** One message of an open bank, with the step that takes a granted amount off the balance. */
  lemma AnswerIsSteps(s: State) returns (k: nat)
    requires s.bankOpen && s.debit.None? && s.toBank != []
    ensures var (answer, amount) := BankAnswer(s.balance, s.toBank[0]);
      && amount <= s.balance
      && Served(s, RunFrom(s, BankSteps(k)), (s.balance - amount, s.toBank[1..], !s.toBank[0].CloseBank?), answer)
  {
    var s1 := Apply(s, BankStep);
    AnswerServes(s);
    BankStepFirst(s, 0);
    BankStepFirst(s, 1);
    BankStepFirst(s1, 0);
    hide Apply, Served, BankAnswer;
    k := if s1.debit.Some? then 2 else 1;
  }

  /** The answer, and after a grant the debit. */
  lemma AnswerServes(s: State)
    requires s.bankOpen && s.debit.None? && s.toBank != []
    ensures var s1, (answer, amount) := Apply(s, BankStep), BankAnswer(s.balance, s.toBank[0]);
      && amount <= s.balance
      && Served(s, if s1.debit.Some? then Apply(s1, BankStep) else s1,
                (s.balance - amount, s.toBank[1..], !s.toBank[0].CloseBank?), answer)
  {
    var amount := BankAnswer(s.balance, s.toBank[0]).1;
    assert Sum(s.granted + [amount]) == Sum(s.granted) + amount by {
      assert (s.granted + [amount])[..|s.granted|] == s.granted;
    }
    hide Sum;
  }

  lemma {:induction false} RunJoins(s: State, j: nat, k: nat)
    ensures RunFrom(RunFrom(s, BankSteps(j)), BankSteps(k)) == RunFrom(s, BankSteps(j + k))
    decreases j
  {
    if j > 0 {
      BankStepFirst(s, j - 1);
      BankStepFirst(s, j - 1 + k);
      RunJoins(Apply(s, BankStep), j - 1, k);
    }
  }

  lemma ServedThen(s: State, s1: State, s2: State, first: (nat, seq<BankMsg>, bool), answer: seq<AtmMsg>,
                   end: (nat, seq<BankMsg>, bool), answers: seq<AtmMsg>)
    requires Served(s, s1, first, answer) && Served(s1, s2, end, answers)
    ensures Served(s, s2, end, answer + answers)
  {
  }

  /**
   * What the bank makes of its queue is a run of its steps in the system, one for each message and a second one for
   * each withdrawal it grants; what its balance has lost is what it granted.
   */
  lemma {:induction false} ServeIsSteps(s: State) returns (k: nat)
    requires s.bankOpen && s.debit.None?
    ensures Served(s, RunFrom(s, BankSteps(k)), Serve(s.balance, s.toBank).0, Serve(s.balance, s.toBank).1)
    decreases |s.toBank|
  {
    ServeEnd(s.balance, s.toBank);
    if s.toBank == [] {
      k := 0;
    } else {
      NoAnswer(s.balance);
      k := AnswerIsSteps(s);
      hide Serve, Apply, BankAnswer, RunFrom, Sum;
      if !s.toBank[0].CloseBank? {
        ServeFirst(s.balance, s.toBank);
        var s1 := RunFrom(s, BankSteps(k));
        var j := ServeIsSteps(s1);
        RunJoins(s, k, j);
        var (answer, amount) := BankAnswer(s.balance, s.toBank[0]);
        ServedThen(s, s1, RunFrom(s1, BankSteps(j)), (s.balance - amount, s.toBank[1..], true), answer,
                   Serve(s1.balance, s1.toBank).0, Serve(s1.balance, s1.toBank).1);
        k := k + j;
      }
    }
  }
}
