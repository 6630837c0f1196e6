/** The messages of the ATM, and what its two machines do on one message each. */
module AtmMessages {
  datatype AtmMsg =
    | CardInserted(account: string)
    | DigitPressed(digit: char)
    | ClearLastPressed
    | CancelPressed
    | WithdrawPressed(amount: nat)
    | BalancePressed
    | PinVerified
    | PinIncorrect
    | WithdrawOK
    | WithdrawDenied
    | BalanceIs(amount: nat)
    | CloseAtm

  datatype BankMsg =
    | VerifyPin(account: string, pin: string)
    | Withdraw(account: string, amount: nat)
    | GetBalance(account: string)
    | WithdrawProcessed(account: string, amount: nat)
    | CancelWithdrawal(account: string, amount: nat)
    | CloseBank

  datatype UiMsg =
    | IssueMoney(amount: nat)
    | DisplayInsufficientFunds
    | DisplayWithdrawalCancelled
    | DisplayBalance(amount: nat)
    | DisplayWithdrawalOptions
    | DisplayPinIncorrectMessage
    | DisplayEnterPin
    | DisplayEnterCard
    | EjectCard

  /** The state function that the ATM runs; `Stopped` once its queue was closed. */
  datatype Phase =
    | WaitForCard
    | GettingPin
    | VerifyingPin
    | WaitForAction
    | ProcessWithdrawal
    | ProcessBalance
    | DoneProcessing
    | Stopped

  datatype Atm = Atm(phase: Phase, account: string, pin: string, amount: nat)

  const PIN_LENGTH: nat := 4
  const RIGHT_PIN: string := "1937"
  const INITIAL_BALANCE: nat := 199

  /**
   * What a machine makes of a message: no handler matches, or a new state and messages to the bank and the interface.
   */
  datatype Reaction = Dropped | Handled(atm: Atm, toBank: seq<BankMsg>, toUi: seq<UiMsg>)

  /** The handlers of the ATM, state function by state function. */
  function Handle(a: Atm, m: AtmMsg): Reaction {
    if a.phase.Stopped? then Dropped
    else if m.CloseAtm? then Handled(a.(phase := Stopped), [], [])
    else match a.phase
      case WaitForCard =>
        (match m
         case CardInserted(account) => Handled(Atm(GettingPin, account, "", a.amount), [], [DisplayEnterPin])
         case _ => Dropped)
      case GettingPin =>
        (match m
         case DigitPressed(digit) =>
           var pin := a.pin + [digit];
           if |pin| == PIN_LENGTH then Handled(a.(pin := pin, phase := VerifyingPin), [VerifyPin(a.account, pin)], [])
           else Handled(a.(pin := pin), [], [])
         case ClearLastPressed => Handled(a.(pin := if a.pin == "" then "" else a.pin[..|a.pin| - 1]), [], [])
         case CancelPressed => Handled(a.(phase := DoneProcessing), [], [])
         case _ => Dropped)
      case VerifyingPin =>
        (match m
         case PinVerified => Handled(a.(phase := WaitForAction), [], [])
         case PinIncorrect => Handled(a.(phase := DoneProcessing), [], [DisplayPinIncorrectMessage])
         case CancelPressed => Handled(a.(phase := DoneProcessing), [], [])
         case _ => Dropped)
      case WaitForAction =>
        (match m
         case WithdrawPressed(amount) =>
           Handled(a.(amount := amount, phase := ProcessWithdrawal), [Withdraw(a.account, amount)], [])
         case BalancePressed => Handled(a.(phase := ProcessBalance), [GetBalance(a.account)], [])
         case CancelPressed => Handled(a.(phase := DoneProcessing), [], [])
         case _ => Dropped)
      case ProcessWithdrawal =>
        (match m
         case WithdrawOK =>
           Handled(a.(phase := DoneProcessing), [WithdrawProcessed(a.account, a.amount)], [IssueMoney(a.amount)])
         case WithdrawDenied => Handled(a.(phase := DoneProcessing), [], [DisplayInsufficientFunds])
         case CancelPressed =>
           Handled(a.(phase := DoneProcessing), [CancelWithdrawal(a.account, a.amount)], [DisplayWithdrawalCancelled])
         case _ => Dropped)
      case ProcessBalance =>
        (match m
         case BalanceIs(amount) => Handled(a.(phase := WaitForAction), [], [DisplayBalance(amount)])
         case CancelPressed => Handled(a.(phase := DoneProcessing), [], [])
         case _ => Dropped)
      case DoneProcessing => Dropped
  }

  /** What the state functions do before they wait: the card comes out, and the next prompt is shown. */
  function Prompt(a: Atm): (Atm, seq<UiMsg>) {
    match a.phase
    case DoneProcessing => (a.(phase := WaitForCard), [EjectCard, DisplayEnterCard])
    case WaitForCard => (a, [DisplayEnterCard])
    case WaitForAction => (a, [DisplayWithdrawalOptions])
    case _ => (a, [])
  }

  /** One message, up to the point where the ATM waits for the next. */
  function React(a: Atm, m: AtmMsg): Reaction {
    match Handle(a, m)
    case Dropped => Dropped
    case Handled(b, toBank, toUi) =>
      var (c, prompt) := Prompt(b);
      Handled(c, toBank, toUi + prompt)
  }

  /** The bank's answer to a message, and the amount it takes off the balance after it has answered. */
  function BankAnswer(balance: nat, m: BankMsg): (seq<AtmMsg>, nat) {
    match m
    case VerifyPin(_, pin) => ([if pin == RIGHT_PIN then PinVerified else PinIncorrect], 0)
    case Withdraw(_, amount) => if balance >= amount then ([WithdrawOK], amount) else ([WithdrawDenied], 0)
    case GetBalance(_) => ([BalanceIs(balance)], 0)
    case _ => ([], 0)
  }
}
