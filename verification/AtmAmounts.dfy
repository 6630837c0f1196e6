/** Which amounts a user may ask for without being paid more than the bank debits. */
module AtmAmounts {
  import opened Options
  import opened AtmMessages
  import opened AtmSystem

  /** The user asks only for amounts in `amounts`. */
  predicate Asks(actions: seq<Action>, amounts: set<nat>) {
    forall a <- actions :: a.Press? && a.key.WithdrawPressed? ==> a.key.amount in amounts
  }

  /** Of two different amounts, the bank can never grant the smaller. */
  predicate Uniform(amounts: set<nat>) {
    forall a <- amounts, b <- amounts :: a < b ==> a > INITIAL_BALANCE
  }

  // ---------- Amounts on their way ----------

  ghost predicate AtmMsgOk(m: AtmMsg, amounts: set<nat>) {
    m.WithdrawPressed? ==> m.amount in amounts
  }

  ghost predicate BankMsgOk(m: BankMsg, amounts: set<nat>) {
    m.Withdraw? ==> m.amount in amounts
  }

  ghost predicate AmountsOk(s: State, amounts: set<nat>) {
    && (s.atm.phase.ProcessWithdrawal? ==> s.atm.amount in amounts)
    && (forall m <- s.toAtm :: AtmMsgOk(m, amounts))
    && (forall m <- s.toBank :: BankMsgOk(m, amounts))
    && (forall g <- s.granted :: g in amounts && g <= INITIAL_BALANCE)
    && (forall p <- Payments(s.toUi) :: p in amounts)
  }

  /** The only amount that a handler takes on is one just pressed. */
  lemma ReactAsks(a: Atm, m: AtmMsg)
    requires React(a, m).Handled?
    ensures var r := React(a, m);
      && |r.toBank| <= 1
      && (|r.toBank| == 1 && r.toBank[0].Withdraw? ==> m.WithdrawPressed? && r.toBank[0].amount == m.amount)
      && (r.atm.phase.ProcessWithdrawal? ==> m.WithdrawPressed? && r.atm.amount == m.amount)
      && (m.WithdrawOK? ==> a.phase.ProcessWithdrawal?)
  {
  }

  lemma ReactAmounts(a: Atm, m: AtmMsg, amounts: set<nat>)
    requires React(a, m).Handled? && AtmMsgOk(m, amounts)
    requires a.phase.ProcessWithdrawal? ==> a.amount in amounts
    ensures var r := React(a, m);
      && (r.atm.phase.ProcessWithdrawal? ==> r.atm.amount in amounts)
      && (forall b <- r.toBank :: BankMsgOk(b, amounts))
      && (forall p <- Payments(r.toUi) :: p in amounts)
  {
    hide React, Payments;
    ReactPays(a, m);
    ReactAsks(a, m);
  }

  lemma ApplyAmounts(s: State, a: Action, amounts: set<nat>)
    requires AmountsOk(s, amounts) && Balanced(s)
    requires a.Press? && a.key.WithdrawPressed? ==> a.key.amount in amounts
    ensures AmountsOk(Apply(s, a), amounts)
  {
    match a
    case Press(key) => hide Payments;
    case AtmStep =>
      if s.toAtm != [] && !s.atm.phase.Stopped? {
        var m := s.toAtm[0];
        assert AtmMsgOk(m, amounts);
        if React(s.atm, m).Handled? {
          ReactAmounts(s.atm, m, amounts);
          PaymentsAdd(s.toUi, React(s.atm, m).toUi);
        }
        hide React, Payments, Balanced;
      }
    case BankStep =>
      if s.debit.None? && s.toBank != [] && s.bankOpen {
        assert BankMsgOk(s.toBank[0], amounts);
        hide Payments, Sum, Unread;
      }
    case CloseTheBank => hide Payments;
  }

  lemma {:induction false} RunAmounts(s: State, actions: seq<Action>, amounts: set<nat>)
    requires AmountsOk(s, amounts) && Balanced(s) && Asks(actions, amounts)
    ensures AmountsOk(RunFrom(s, actions), amounts) && Balanced(RunFrom(s, actions))
    decreases |actions|
  {
    hide Balanced, Apply, AmountsOk;
    if actions != [] {
      assert actions[0] in actions;
      ApplyBalanced(s, actions[0]);
      ApplyAmounts(s, actions[0], amounts);
      RunAmounts(Apply(s, actions[0]), actions[1..], amounts);
    }
  }

  lemma {:induction false} SumAtMost(xs: seq<nat>, g: nat)
    requires forall x <- xs :: x <= g
    ensures Sum(xs) <= |xs| * g
  {
    if xs != [] {
      var most := xs[..|xs| - 1];
      assert forall x <- most :: x in xs;
      SumAtMost(most, g);
      assert xs[|xs| - 1] in xs;
      assert |xs| * g == |most| * g + g;
    }
  }

  lemma {:induction false} SumExactly(xs: seq<nat>, g: nat)
    requires forall x <- xs :: x == g
    ensures Sum(xs) == |xs| * g
  {
    if xs != [] {
      var most := xs[..|xs| - 1];
      assert forall x <- most :: x in xs;
      SumExactly(most, g);
      assert xs[|xs| - 1] in xs;
      assert |xs| * g == |most| * g + g;
    }
  }

  lemma RunFacts(actions: seq<Action>, amounts: set<nat>)
    requires Asks(actions, amounts)
    ensures AmountsOk(Run(actions), amounts) && Balanced(Run(actions))
  {
    assert Payments([DisplayEnterCard]) == [] by { PaymentsFirst([DisplayEnterCard]); }
    RunAmounts(Init(), actions, amounts);
  }

  /** With uniform amounts, what was paid and what may still be paid never exceeds what the bank debits. */
  lemma UniformIsSafe(actions: seq<Action>, amounts: set<nat>)
    requires Asks(actions, amounts) && Uniform(amounts)
    ensures var s := Run(actions);
      && Issued(s) + s.balance <= INITIAL_BALANCE + Pending(s)
      && forall g <- s.granted :: Issued(s) + Unread(s.toAtm) * g + s.balance <= INITIAL_BALANCE + Pending(s)
  {
    var s := Run(actions);
    RunFacts(actions, amounts);
    hide Run;
    if s.granted == [] {
      assert Payments(s.toUi) == [];
    } else {
      var g := s.granted[0];
      assert g in s.granted;
      SumExactly(s.granted, g);
      SumAtMost(Payments(s.toUi), g);
      Split(|Payments(s.toUi)|, Unread(s.toAtm), s.lost, |s.granted|, g);
    }
  }

  lemma Split(paid: nat, unread: nat, lost: nat, granted: nat, g: nat)
    requires granted == paid + unread + lost
    ensures paid * g + unread * g <= granted * g
  {
    assert granted * g == paid * g + unread * g + lost * g;
  }

  /**
   * With one amount, the only one that the program's keyboard can send, the account is exact: the balance, the money
   * paid out, and the amounts of the allowances unread or lost add up to the initial balance.
   */
  lemma FixedAmountIsExact(actions: seq<Action>, amount: nat)
    requires Asks(actions, {amount})
    ensures var s := Run(actions);
      s.balance + Issued(s) + amount * (Unread(s.toAtm) + s.lost) == INITIAL_BALANCE + Pending(s)
  {
    var s := Run(actions);
    RunFacts(actions, {amount});
    hide Run;
    SumExactly(s.granted, amount);
    SumExactly(Payments(s.toUi), amount);
    Parts(|Payments(s.toUi)|, Unread(s.toAtm) + s.lost, |s.granted|, amount);
  }

  lemma Parts(paid: nat, rest: nat, granted: nat, g: nat)
    requires granted == paid + rest
    ensures granted * g == paid * g + g * rest
  {
  }

  // ---------- Two cancels and a slow bank ----------

  lemma {:induction false} RunAppend(s: State, a: seq<Action>, b: seq<Action>)
    ensures RunFrom(s, a + b) == RunFrom(RunFrom(s, a), b)
    decreases |a|
  {
    hide Apply;
    if a == [] {
      assert a + b == b;
    } else {
      assert (a + b)[0] == a[0] && (a + b)[1..] == a[1..] + b;
      RunAppend(Apply(s, a[0]), a[1..], b);
    }
  }

  /** A key that the ATM reads before anything else happens. */
  function Key(k: AtmMsg): seq<Action> {
    [Press(k), AtmStep]
  }

  lemma TwoSteps(s: State, a: Action, b: Action)
    ensures RunFrom(s, [a, b]) == Apply(Apply(s, a), b)
  {
    hide Apply;
    assert [a, b][1..] == [b] && [b][1..] == [];
    assert RunFrom(Apply(s, a), [b]) == Apply(Apply(s, a), b);
  }

  /** Nothing is on its way to the ATM, and the bank is open and between messages. */
  ghost predicate Calm(s: State) {
    s.toAtm == [] && s.debit == None && s.bankOpen
  }

  lemma KeyRead(s: State, k: AtmMsg)
    requires Calm(s) && IsKey(k) && React(s.atm, k).Handled?
    ensures var r, s' := React(s.atm, k), RunFrom(s, Key(k));
      && Calm(s') && s'.atm == r.atm && s'.toBank == s.toBank + r.toBank && s'.balance == s.balance
      && Payments(s'.toUi) == Payments(s.toUi)
  {
    TwoSteps(s, Press(k), AtmStep);
    assert (s.toAtm + [k])[1..] == [];
    ReactPays(s.atm, k);
    PaymentsAdd(s.toUi, React(s.atm, k).toUi);
    hide React, Payments;
  }

  function LogIn(): seq<Action> {
    Key(CardInserted(""))
    + Key(DigitPressed('1')) + Key(DigitPressed('9')) + Key(DigitPressed('3')) + Key(DigitPressed('7'))
  }

  /** The right pin is typed, and the bank is asked to verify it. */
  lemma LoggedIn(s: State)
    requires Calm(s) && s.atm.phase.WaitForCard?
    ensures var s' := RunFrom(s, LogIn());
      && Calm(s') && s'.atm.phase.VerifyingPin? && s'.toBank == s.toBank + [VerifyPin("", RIGHT_PIN)]
      && s'.balance == s.balance && Payments(s'.toUi) == Payments(s.toUi)
  {
    hide RunFrom, Payments, Key;
    var k0, k1, k2 := Key(CardInserted("")), Key(DigitPressed('1')), Key(DigitPressed('9'));
    var k3, k4 := Key(DigitPressed('3')), Key(DigitPressed('7'));
    RunAppend(s, k0 + k1 + k2 + k3, k4);
    RunAppend(s, k0 + k1 + k2, k3);
    RunAppend(s, k0 + k1, k2);
    RunAppend(s, k0, k1);
    var s1 := RunFrom(s, k0);
    CardRead(s);
    var s2 := RunFrom(s1, k1);
    DigitRead(s1, '1');
    var s3 := RunFrom(s2, k2);
    DigitRead(s2, '9');
    var s4 := RunFrom(s3, k3);
    DigitRead(s3, '3');
    LastDigitRead(s4, '7');
    assert s4.atm.pin == "193" && "193" + ['7'] == RIGHT_PIN;
  }

  lemma CardRead(s: State)
    requires Calm(s) && s.atm.phase.WaitForCard?
    ensures var s' := RunFrom(s, Key(CardInserted("")));
      && Calm(s') && s'.atm.phase.GettingPin? && s'.atm.account == "" && s'.atm.pin == ""
      && s'.toBank == s.toBank && s'.balance == s.balance && Payments(s'.toUi) == Payments(s.toUi)
  {
    hide RunFrom, Payments, Key;
    KeyRead(s, CardInserted(""));
    assert s.toBank + [] == s.toBank;
  }

  lemma DigitRead(s: State, d: char)
    requires Calm(s) && s.atm.phase.GettingPin? && |s.atm.pin| < 3
    ensures var s' := RunFrom(s, Key(DigitPressed(d)));
      && Calm(s') && s'.atm == s.atm.(pin := s.atm.pin + [d])
      && s'.toBank == s.toBank && s'.balance == s.balance && Payments(s'.toUi) == Payments(s.toUi)
  {
    hide RunFrom, Payments, Key;
    KeyRead(s, DigitPressed(d));
    assert s.toBank + [] == s.toBank;
  }

  lemma LastDigitRead(s: State, d: char)
    requires Calm(s) && s.atm.phase.GettingPin? && |s.atm.pin| == 3
    ensures var s' := RunFrom(s, Key(DigitPressed(d)));
      && Calm(s') && s'.atm.phase.VerifyingPin?
      && s'.toBank == s.toBank + [VerifyPin(s.atm.account, s.atm.pin + [d])]
      && s'.balance == s.balance && Payments(s'.toUi) == Payments(s.toUi)
  {
    hide RunFrom, Payments, Key;
    KeyRead(s, DigitPressed(d));
  }

  /** The bank answers one request to verify the right pin, and the ATM takes that for the answer it waits for. */
  lemma PinAnswered(s: State)
    requires Calm(s) && s.atm.phase.VerifyingPin? && s.toBank != [] && s.toBank[0] == VerifyPin("", RIGHT_PIN)
    ensures var s' := RunFrom(s, [BankStep, AtmStep]);
      && Calm(s') && s'.atm == s.atm.(phase := WaitForAction) && s'.toBank == s.toBank[1..]
      && s'.balance == s.balance && Payments(s'.toUi) == Payments(s.toUi)
  {
    TwoSteps(s, BankStep, AtmStep);
    var s1 := Apply(s, BankStep);
    assert s1.toAtm == [PinVerified];
    ReactPays(s.atm, PinVerified);
    PaymentsAdd(s.toUi, React(s.atm, PinVerified).toUi);
    hide Payments;
  }

  /** Log in and be let in by the answer to some earlier request. */
  function Enter(): seq<Action> {
    LogIn() + [BankStep, AtmStep]
  }

  lemma Entered(s: State)
    requires Calm(s) && s.atm.phase.WaitForCard? && s.toBank != [] && s.toBank[0] == VerifyPin("", RIGHT_PIN)
    ensures var s' := RunFrom(s, Enter());
      && Calm(s') && s'.atm.phase.WaitForAction? && s'.toBank == s.toBank[1..] + [VerifyPin("", RIGHT_PIN)]
      && s'.balance == s.balance && Payments(s'.toUi) == Payments(s.toUi)
  {
    hide RunFrom, Payments, LogIn;
    LoggedIn(s);
    RunAppend(s, LogIn(), [BankStep, AtmStep]);
    PinAnswered(RunFrom(s, LogIn()));
  }

  /** Ask for an amount. */
  lemma Asked(s: State, w: nat)
    requires Calm(s) && s.atm.phase.WaitForAction?
    ensures var s' := RunFrom(s, Key(WithdrawPressed(w)));
      && Calm(s') && s'.atm == s.atm.(amount := w, phase := ProcessWithdrawal)
      && s'.toBank == s.toBank + [Withdraw(s.atm.account, w)]
      && s'.balance == s.balance && Payments(s'.toUi) == Payments(s.toUi)
  {
    hide RunFrom, Payments, Key;
    KeyRead(s, WithdrawPressed(w));
  }

  lemma Cancelled(s: State)
    requires Calm(s) && (s.atm.phase.VerifyingPin? || s.atm.phase.ProcessWithdrawal?)
    ensures var s' := RunFrom(s, Key(CancelPressed));
      && Calm(s') && s'.atm.phase.WaitForCard? && s'.balance == s.balance && Payments(s'.toUi) == Payments(s.toUi)
      && s'.toBank == s.toBank +
           (if s.atm.phase.VerifyingPin? then [] else [CancelWithdrawal(s.atm.account, s.atm.amount)])
  {
    hide RunFrom, Payments, Key;
    KeyRead(s, CancelPressed);
  }

  /** A session cancelled while the pin is verified, and one that gets in on the answer meant for it. */
  function FirstSessions(): seq<Action> {
    LogIn() + Key(CancelPressed) + Enter()
  }

  lemma AfterFirstSessions()
    ensures var s := Run(FirstSessions());
      && Calm(s) && s.atm.phase.WaitForAction? && s.balance == INITIAL_BALANCE && Payments(s.toUi) == []
      && s.toBank == [VerifyPin("", RIGHT_PIN)]
  {
    assert Payments(Init().toUi) == [] by { PaymentsFirst([DisplayEnterCard]); }
    hide RunFrom, Payments, LogIn, Key, Enter;
    RunAppend(Init(), LogIn() + Key(CancelPressed), Enter());
    RunAppend(Init(), LogIn(), Key(CancelPressed));
    var s1 := RunFrom(Init(), LogIn());
    LoggedIn(Init());
    var s2 := RunFrom(s1, Key(CancelPressed));
    Cancelled(s1);
    Entered(s2);
    assert s2.toBank == [VerifyPin("", RIGHT_PIN)];
  }

  /** Then a withdrawal is asked for and cancelled, and a third session gets in on the answer meant for the second. */
  function Sessions(a: nat): seq<Action> {
    FirstSessions() + Key(WithdrawPressed(a)) + Key(CancelPressed) + Enter()
  }

  lemma AfterSessions(a: nat)
    ensures var s := Run(Sessions(a));
      && Calm(s) && s.atm.phase.WaitForAction? && s.balance == INITIAL_BALANCE && Payments(s.toUi) == []
      && |s.toBank| > 0 && s.toBank[0].Withdraw? && s.toBank[0].amount == a
  {
    hide RunFrom, Payments, FirstSessions, Key, Enter;
    AfterFirstSessions();
    var k1, k2, k3 := FirstSessions(), Key(WithdrawPressed(a)), Key(CancelPressed);
    RunAppend(Init(), k1 + k2 + k3, Enter());
    RunAppend(Init(), k1 + k2, k3);
    RunAppend(Init(), k1, k2);
    var s1 := RunFrom(Init(), k1);
    var s2 := RunFrom(s1, k2);
    Asked(s1, a);
    var s3 := RunFrom(s2, k3);
    Cancelled(s2);
    Entered(s3);
  }

  /** The last session asks for `b` and is paid on the allowance for `a`. */
  function StaleRun(a: nat, b: nat): seq<Action> {
    Sessions(a) + Key(WithdrawPressed(b)) + [BankStep, BankStep] + [AtmStep]
  }

  lemma StaleAsks(a: nat, b: nat, amounts: set<nat>)
    requires a in amounts && b in amounts
    ensures Asks(StaleRun(a, b), amounts)
  {
    assert Asks(LogIn(), amounts) && Asks(Enter(), amounts) && Asks(Key(CancelPressed), amounts);
    assert Asks(Key(WithdrawPressed(a)), amounts) && Asks(Key(WithdrawPressed(b)), amounts);
    hide LogIn, Enter, Key;
    assert Asks(FirstSessions(), amounts);
    hide FirstSessions;
    assert Asks(Sessions(a), amounts);
    hide Sessions;
  }

  /**
   * Two amounts of which the bank can grant the smaller: there is a run that pays out the larger and debits the
   * smaller.
   */
  lemma StaleRunOverpays(a: nat, b: nat)
    requires a < b && a <= INITIAL_BALANCE
    ensures var s := Run(StaleRun(a, b)); s.debit == None && s.balance == INITIAL_BALANCE - a && Issued(s) == b
  {
    AfterSessions(a);
    hide RunFrom, Payments, Sessions, Key;
    var k1, k2 := Sessions(a), Key(WithdrawPressed(b));
    RunAppend(Init(), k1 + k2 + [BankStep, BankStep], [AtmStep]);
    RunAppend(Init(), k1 + k2, [BankStep, BankStep]);
    RunAppend(Init(), k1, k2);
    var s1 := RunFrom(Init(), k1);
    var s2 := RunFrom(s1, k2);
    Asked(s1, b);
    StalePaid(s2, a, b);
  }

  lemma StalePaid(s: State, a: nat, b: nat)
    requires Calm(s) && s.atm.phase.ProcessWithdrawal? && s.atm.amount == b && a <= s.balance == INITIAL_BALANCE
    requires |s.toBank| > 0 && s.toBank[0].Withdraw? && s.toBank[0].amount == a && Payments(s.toUi) == []
    ensures var s' := RunFrom(RunFrom(s, [BankStep, BankStep]), [AtmStep]);
      s'.debit == None && s'.balance == INITIAL_BALANCE - a && Issued(s') == b
  {
    TwoSteps(s, BankStep, BankStep);
    var s1 := RunFrom(s, [BankStep, BankStep]);
    assert s1.toAtm == [WithdrawOK] && s1.balance == INITIAL_BALANCE - a && s1.debit == None;
    assert [AtmStep][1..] == [];
    assert RunFrom(s1, [AtmStep]) == Apply(s1, AtmStep);
    ReactPays(s.atm, WithdrawOK);
    PaymentsAdd(s.toUi, React(s.atm, WithdrawOK).toUi);
    assert [b][..0] == [];
    hide Payments, Unread;
    assert Sum([b]) == b;
  }

  /** In the middle of a withdrawal, money may be paid out that the bank has not debited yet: it answers first. */
  lemma PaidBeforeDebited(w: nat)
    requires w <= INITIAL_BALANCE
    ensures var s := Run(LogIn() + [BankStep, AtmStep] + Key(WithdrawPressed(w)) + [BankStep, AtmStep]);
      s.debit == Some(w) && s.balance == INITIAL_BALANCE && Issued(s) == w
  {
    assert Payments(Init().toUi) == [] by { PaymentsFirst([DisplayEnterCard]); }
    var k1, k2, k3 := LogIn(), [BankStep, AtmStep], Key(WithdrawPressed(w));
    RunAppend(Init(), k1 + k2 + k3, [BankStep, AtmStep]);
    RunAppend(Init(), k1 + k2, k3);
    RunAppend(Init(), k1, k2);
    hide RunFrom, Payments, LogIn, Key;
    var s1 := RunFrom(Init(), k1);
    LoggedIn(Init());
    var s2 := RunFrom(s1, k2);
    PinAnswered(s1);
    assert s1.toBank[1..] == [];
    var s3 := RunFrom(s2, k3);
    Asked(s2, w);
    PaidEarly(s3, w);
  }

  lemma PaidEarly(s: State, w: nat)
    requires Calm(s) && s.atm.phase.ProcessWithdrawal? && s.atm.amount == w && w <= s.balance
    requires |s.toBank| == 1 && s.toBank[0].Withdraw? && s.toBank[0].amount == w && Payments(s.toUi) == []
    ensures var s' := RunFrom(s, [BankStep, AtmStep]);
      s'.debit == Some(w) && s'.balance == s.balance && Issued(s') == w
  {
    TwoSteps(s, BankStep, AtmStep);
    assert Apply(s, BankStep).toAtm == [WithdrawOK];
    ReactPays(s.atm, WithdrawOK);
    PaymentsAdd(s.toUi, React(s.atm, WithdrawOK).toUi);
    assert [w][..0] == [];
    hide Payments, Unread;
    assert Sum([w]) == w;
  }

  // ---------- Exactly when the bank's money is safe ----------

  /** Between two messages of the bank, no more has been paid out than was debited. */
  ghost predicate Covered(s: State) {
    s.debit.None? ==> Issued(s) <= INITIAL_BALANCE - s.balance
  }

  /** No run overpays, exactly when of two different amounts on offer the bank could never grant the smaller. */
  lemma SafeIffUniform(amounts: set<nat>)
    ensures (forall actions :: Asks(actions, amounts) ==> Covered(Run(actions))) <==> Uniform(amounts)
  {
    hide Run, Issued, StaleRun;
    if Uniform(amounts) {
      forall actions | Asks(actions, amounts) ensures Covered(Run(actions)) {
        UniformIsSafe(actions, amounts);
      }
    } else {
      var a, b :| a in amounts && b in amounts && a < b && a <= INITIAL_BALANCE;
      StaleAsks(a, b, amounts);
      StaleRunOverpays(a, b);
      assert !Covered(Run(StaleRun(a, b)));
    }
  }
}
