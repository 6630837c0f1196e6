/** Whole sessions of one customer, from a machine that waits for a card to a machine that waits for a card. */
module AtmSessions {
  import opened Options
  import opened AtmMessages
  import opened AtmSystem
  import opened AtmAmounts

  /** No message is on its way, the bank is open, and the ATM waits for a card. */
  ghost predicate Ready(s: State) {
    Calm(s) && s.toBank == [] && s.atm.phase.WaitForCard?
  }

  // ---------- Keys and answers, one at a time ----------

  lemma KeyTaken(s: State, k: AtmMsg)
    requires Calm(s) && IsKey(k) && React(s.atm, k).Handled?
    ensures var r := React(s.atm, k);
      RunFrom(s, Key(k)) == s.(atm := r.atm, toBank := s.toBank + r.toBank, toUi := s.toUi + r.toUi)
  {
    TwoSteps(s, Press(k), AtmStep);
    assert (s.toAtm + [k])[1..] == [];
    hide React;
  }

  /** The bank takes one message and the ATM reads the answer. */
  function Turn(): seq<Action> {
    [BankStep, BankStep, AtmStep]
  }

  lemma ThreeSteps(s: State, a: Action, b: Action, c: Action)
    ensures RunFrom(s, [a, b, c]) == Apply(Apply(Apply(s, a), b), c)
  {
    hide Apply;
    assert [a, b, c][1..] == [b, c];
    TwoSteps(Apply(s, a), b, c);
  }

  lemma OneStep(s: State, a: Action)
    ensures RunFrom(s, [a]) == Apply(s, a)
  {
    assert [a][1..] == [];
  }

  lemma Answered(s: State, m: BankMsg)
    requires Calm(s) && s.toBank == [m] && |BankAnswer(s.balance, m).0| == 1
    requires React(s.atm, BankAnswer(s.balance, m).0[0]).Handled?
    ensures var (answer, amount) := BankAnswer(s.balance, m);
      var r := React(s.atm, answer[0]);
      && amount <= s.balance
      && RunFrom(s, Turn()) ==
           s.(atm := r.atm, toBank := r.toBank, toUi := s.toUi + r.toUi, balance := s.balance - amount,
              granted := if m.Withdraw? && answer == [WithdrawOK] then s.granted + [amount] else s.granted)
  {
    ThreeSteps(s, BankStep, BankStep, AtmStep);
    var (answer, amount) := BankAnswer(s.balance, m);
    var s1 := Apply(s, BankStep);
    assert answer == [answer[0]] && s1.toAtm == answer;
    assert [m][1..] == [];
    var s2 := Apply(s1, BankStep);
    assert s2 == s1.(balance := s.balance - amount, debit := None);
    hide React;
    assert answer[1..] == [];
  }

  // ---------- The way in ----------

  function Digits(pin: string): seq<Action> {
    if pin == "" then [] else Digits(pin[..|pin| - 1]) + Key(DigitPressed(pin[|pin| - 1]))
  }

  /** A card and a pin. */
  function Card(account: string, pin: string): seq<Action> {
    Key(CardInserted(account)) + Digits(pin)
  }

  lemma {:induction false} DigitsTyped(s: State, pin: string)
    requires Calm(s) && s.atm.phase.GettingPin? && s.atm.pin == "" && |pin| <= PIN_LENGTH
    ensures RunFrom(s, Digits(pin)) ==
      if |pin| < PIN_LENGTH then s.(atm := s.atm.(pin := pin))
      else s.(atm := s.atm.(pin := pin, phase := VerifyingPin), toBank := s.toBank + [VerifyPin(s.atm.account, pin)])
    decreases |pin|
  {
    if pin != "" {
      var most, d := pin[..|pin| - 1], pin[|pin| - 1];
      DigitsTyped(s, most);
      var s1 := RunFrom(s, Digits(most));
      RunAppend(s, Digits(most), Key(DigitPressed(d)));
      assert most + [d] == pin;
      hide RunFrom, Key;
      KeyTaken(s1, DigitPressed(d));
      assert s.toBank + [] == s.toBank && s.toUi + [] == s.toUi;
    }
  }

  /** A digit typed by mistake and cleared leaves no trace. */
  lemma DigitCleared(s: State, d: char)
    requires Calm(s) && s.atm.phase.GettingPin? && |s.atm.pin| + 1 < PIN_LENGTH
    ensures RunFrom(s, Key(DigitPressed(d)) + Key(ClearLastPressed)) == s
  {
    RunAppend(s, Key(DigitPressed(d)), Key(ClearLastPressed));
    hide RunFrom, Key;
    KeyTaken(s, DigitPressed(d));
    var s1 := RunFrom(s, Key(DigitPressed(d)));
    assert s.toBank + [] == s.toBank && s.toUi + [] == s.toUi;
    assert s1.atm.pin[..|s1.atm.pin| - 1] == s.atm.pin;
    KeyTaken(s1, ClearLastPressed);
  }

  lemma CardTaken(s: State, account: string, pin: string)
    requires Ready(s) && |pin| == PIN_LENGTH
    ensures var s' := RunFrom(s, Card(account, pin));
      s' == s.(atm := Atm(VerifyingPin, account, pin, s.atm.amount), toBank := [VerifyPin(account, pin)],
               toUi := s.toUi + [DisplayEnterPin])
  {
    RunAppend(s, Key(CardInserted(account)), Digits(pin));
    hide RunFrom, Key, Digits;
    KeyTaken(s, CardInserted(account));
    var s1 := RunFrom(s, Key(CardInserted(account)));
    assert s.toBank + [] == [];
    DigitsTyped(s1, pin);
  }

  /** The right pin lets the customer in. */
  lemma LetIn(s: State, account: string)
    requires Ready(s)
    ensures RunFrom(s, Card(account, "1937") + Turn()) ==
      s.(atm := Atm(WaitForAction, account, "1937", s.atm.amount),
         toUi := s.toUi + [DisplayEnterPin, DisplayWithdrawalOptions])
  {
    RunAppend(s, Card(account, "1937"), Turn());
    hide RunFrom, Card, Turn;
    CardTaken(s, account, "1937");
    var s1 := RunFrom(s, Card(account, "1937"));
    Answered(s1, VerifyPin(account, "1937"));
    assert s1.toUi + [DisplayWithdrawalOptions] == s.toUi + [DisplayEnterPin, DisplayWithdrawalOptions];
  }

  // ---------- Whole sessions ----------

  /** Any other pin ends the session, and nothing else happens. */
  lemma WrongPinSession(s: State, account: string, pin: string)
    requires Ready(s) && |pin| == PIN_LENGTH && pin != "1937"
    ensures var s' := RunFrom(s, Card(account, pin) + Turn());
      && Ready(s') && s'.balance == s.balance && s'.granted == s.granted
      && s'.toUi == s.toUi + [DisplayEnterPin, DisplayPinIncorrectMessage, EjectCard, DisplayEnterCard]
  {
    RunAppend(s, Card(account, pin), Turn());
    hide RunFrom, Card, Turn;
    CardTaken(s, account, pin);
    Answered(RunFrom(s, Card(account, pin)), VerifyPin(account, pin));
  }

  /** A customer who asks for `w` gets it, and it is debited, if and only if the balance covers it. */
  lemma WithdrawalSession(s: State, account: string, w: nat)
    requires Ready(s)
    ensures var s' := RunFrom(s, Card(account, "1937") + Turn() + Key(WithdrawPressed(w)) + Turn() + [BankStep]);
      && Ready(s')
      && (w <= s.balance ==>
            && s'.balance == s.balance - w && s'.granted == s.granted + [w]
            && s'.toUi == s.toUi
                 + [DisplayEnterPin, DisplayWithdrawalOptions, IssueMoney(w), EjectCard, DisplayEnterCard])
      && (w > s.balance ==>
            && s'.balance == s.balance && s'.granted == s.granted
            && s'.toUi == s.toUi
                 + [DisplayEnterPin, DisplayWithdrawalOptions, DisplayInsufficientFunds, EjectCard, DisplayEnterCard])
  {
    var k1, k2 := Card(account, "1937") + Turn(), Key(WithdrawPressed(w));
    RunAppend(s, k1 + k2 + Turn(), [BankStep]);
    RunAppend(s, k1 + k2, Turn());
    RunAppend(s, k1, k2);
    hide RunFrom, Card, Turn, Key, Apply;
    var s1 := RunFrom(s, k1);
    LetIn(s, account);
    var s2 := RunFrom(s1, k2);
    KeyTaken(s1, WithdrawPressed(w));
    assert s2.toBank == [Withdraw(account, w)] && s2.toUi == s1.toUi;
    var s3 := RunFrom(s2, Turn());
    Answered(s2, Withdraw(account, w));
    OneStep(s3, BankStep);
    LastTaken(s3);
  }

  /** What the bank has no answer to is gone. */
  lemma LastTaken(s: State)
    requires Calm(s) && (s.toBank == [] || (|s.toBank| == 1 && s.toBank[0].WithdrawProcessed?))
    ensures Apply(s, BankStep) == s.(toBank := [])
  {
  }

  /** A customer who asks for the balance is shown it, and may go on. */
  lemma BalanceSession(s: State, account: string)
    requires Ready(s)
    ensures var s' := RunFrom(s, Card(account, "1937") + Turn() + Key(BalancePressed) + Turn() + Key(CancelPressed));
      && Ready(s') && s'.balance == s.balance && s'.granted == s.granted
      && s'.toUi == s.toUi + [DisplayEnterPin, DisplayWithdrawalOptions, DisplayBalance(s.balance),
                              DisplayWithdrawalOptions, EjectCard, DisplayEnterCard]
  {
    var k1, k2, k3 := Card(account, "1937") + Turn(), Key(BalancePressed), Key(CancelPressed);
    RunAppend(s, k1 + k2 + Turn(), k3);
    RunAppend(s, k1 + k2, Turn());
    RunAppend(s, k1, k2);
    hide RunFrom, Card, Turn, Key;
    var s1 := RunFrom(s, k1);
    LetIn(s, account);
    var s2 := RunFrom(s1, k2);
    KeyTaken(s1, BalancePressed);
    assert s2.toBank == [GetBalance(account)] && s2.toUi == s1.toUi;
    var s3 := RunFrom(s2, Turn());
    Answered(s2, GetBalance(account));
    KeyTaken(s3, CancelPressed);
  }

  /**
   * A withdrawal cancelled before the bank has read it: the customer gets nothing, but the bank still grants and debits
   * a covered amount, because it takes no notice of the cancellation.
   */
  lemma CancelledSession(s: State, account: string, w: nat)
    requires Ready(s) && w <= s.balance
    ensures var keys := Card(account, "1937") + Turn() + Key(WithdrawPressed(w)) + Key(CancelPressed);
      var s' := RunFrom(s, keys + [BankStep, BankStep, BankStep] + [AtmStep]);
      && Ready(s') && s'.balance == s.balance - w && s'.granted == s.granted + [w] && s'.lost == s.lost + 1
      && s'.toUi == s.toUi + [DisplayEnterPin, DisplayWithdrawalOptions, DisplayWithdrawalCancelled,
                              EjectCard, DisplayEnterCard]
  {
    var k1, k2, k3 := Card(account, "1937") + Turn(), Key(WithdrawPressed(w)), Key(CancelPressed);
    var bank := [BankStep, BankStep, BankStep];
    RunAppend(s, k1 + k2 + k3 + bank, [AtmStep]);
    RunAppend(s, k1 + k2 + k3, bank);
    RunAppend(s, k1 + k2, k3);
    RunAppend(s, k1, k2);
    hide RunFrom, Card, Turn, Key, Apply;
    var s1 := RunFrom(s, k1);
    LetIn(s, account);
    var s2 := RunFrom(s1, k2);
    KeyTaken(s1, WithdrawPressed(w));
    var s3 := RunFrom(s2, k3);
    KeyTaken(s2, CancelPressed);
    assert s3.toBank == [Withdraw(account, w), CancelWithdrawal(account, w)];
    ThreeSteps(s3, BankStep, BankStep, BankStep);
    var s4 := RunFrom(s3, bank);
    CancelIgnored(s3, account, w);
    OneStep(s4, AtmStep);
    AllowanceLost(s4);
  }

  lemma CancelIgnored(s: State, account: string, w: nat)
    requires Calm(s) && s.toBank == [Withdraw(account, w), CancelWithdrawal(account, w)] && w <= s.balance
    ensures Apply(Apply(Apply(s, BankStep), BankStep), BankStep) ==
      s.(toBank := [], toAtm := [WithdrawOK], balance := s.balance - w, granted := s.granted + [w])
  {
  }

  lemma AllowanceLost(s: State)
    requires s.atm.phase.WaitForCard? && s.toAtm == [WithdrawOK]
    ensures Apply(s, AtmStep) == s.(toAtm := [], lost := s.lost + 1)
  {
  }
}
