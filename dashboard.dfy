/**
 * The customer dashboard: the tap-to-build amount shared by the deposit and withdraw
 * tabs, the guards in front of the deposit, withdraw and change-PIN calls, and the
 * message filter that hides internal server errors.
 */
module Dashboard {
  import opened Service
  import opened Text
  import opened Denominations

  const InvalidAmount := "Enter a valid amount."
  const DepositDone := "Deposit successful!"
  const WithdrawDone := "Withdrawal successful!"
  const BothPins := "Enter both old and new PIN."
  const Unexpected := "An unexpected error occurred."
  const FetchFailed := "Failed to fetch data from server."

  /** The `amount` state, of type `number | ""`. */
  datatype Amount = Blank | Num(n: int)

  /** `Number(amount)`: the empty string reads as 0. */
  function Numeric(a: Amount): int
  {
    match a
    case Blank => 0
    case Num(n) => n
  }

  /** The amount guard of `handleDeposit` and `handleWithdraw`: `!amount || amount <= 0` rejects. */
  function AmountIsValid(a: Amount): (ok: bool)
    ensures ok <==> Numeric(a) > 0
  {
    var falsy := a == Blank || a == Num(0);
    !(falsy || (a.Num? && a.n <= 0))
  }

  /** The message `showMessage(msg)` leaves on screen. */
  function ShownMessage(msg: string): (shown: string)
    ensures shown == "" <==> msg == "" || Occurs(msg, InternalServerError)
    ensures shown != "" ==> shown == msg
  {
    if msg == "" || ContainsIgnoringCase(msg, InternalServerError) then "" else msg
  }

  /** A pattern cannot occur where its first two letters do not. */
  lemma NoOccurrenceWithoutLeadLetters(s: string, pat: string)
    requires |pat| >= 2
    requires forall k :: 0 <= k <= |s| - |pat| ==> AsciiLower(s[k]) != pat[0] || AsciiLower(s[k + 1]) != pat[1]
    ensures !Occurs(s, pat)
  {
    forall i | MatchesAt(s, i, pat) ensures false {
      LeadLetters(s, i, pat);
    }
  }

  lemma LeadLetters(s: string, i: int, pat: string)
    requires |pat| >= 2 && MatchesAt(s, i, pat)
    ensures AsciiLower(s[i]) == pat[0] && AsciiLower(s[i + 1]) == pat[1]
  {
    var w := Lower(s[i..i + |pat|]);
    assert w[0] == AsciiLower(s[i]) && w[1] == AsciiLower(s[i + 1]);
  }

  /** The page's own messages pass the filter unchanged. */
  lemma FixedMessagesShown()
    ensures ShownMessage(InvalidAmount) == InvalidAmount
    ensures ShownMessage(DepositDone) == DepositDone
    ensures ShownMessage(WithdrawDone) == WithdrawDone
    ensures ShownMessage(BothPins) == BothPins
  {
    NoOccurrenceWithoutLeadLetters(InvalidAmount, InternalServerError);
    NoOccurrenceWithoutLeadLetters(DepositDone, InternalServerError);
    NoOccurrenceWithoutLeadLetters(WithdrawDone, InternalServerError);
    NoOccurrenceWithoutLeadLetters(BothPins, InternalServerError);
  }

  datatype Tx = Tx(kind: string, amount: int)

  /** The requests the page sends; a deposit carries the note counts, a withdrawal does not. */
  datatype Call =
    | DepositCall(mobile: string, amount: int, denominations: map<int, nat>)
    | WithdrawCall(mobile: string, amount: int)
    | ChangePinCall(mobile: string, oldPin: string, newPin: string)
    | FetchDataCall(mobile: string)

  /** The reply of `deposit` or `withdraw`: the new balance, or what the call threw. */
  datatype BalanceReply = NewBalance(balance: int) | BalanceThrew(thrown: Thrown)

  /** The reply of `changePin`: its message, or what the call threw. */
  datatype PinReply = PinChanged(text: string) | PinThrew(thrown: Thrown)

  /** The replies of `getBalance` then `getTransactions`, or a throw from either. */
  datatype FetchReply = Fetched(balance: int, transactions: seq<Tx>) | FetchThrew

  class Dashboard {
    const mobile: string
    var balance: int
    var transactions: seq<Tx>
    var amount: Amount
    var denoms: map<int, nat>
    var oldPin: string
    var newPin: string
    var message: string
    var activeTab: string

    /** The amount on screen is the value of the tapped notes, and only offered notes are counted. */
    ghost predicate Valid()
      reads this
    {
      OnlyNotes(denoms) && Numeric(amount) == Total(denoms)
    }

    constructor (mobile: string)
      ensures Valid()
      ensures this.mobile == mobile && balance == 0 && transactions == []
      ensures amount == Blank && denoms == map[] && oldPin == "" && newPin == ""
      ensures message == "" && activeTab == "balance"
    {
      this.mobile := mobile;
      balance, transactions := 0, [];
      amount, denoms := Blank, map[];
      oldPin, newPin, message := "", "", "";
      activeTab := "balance";
      TotalEmpty();
    }

    /** `handleTabChange`: switches tab and clears the amount, the notes and both PIN fields. */
    method HandleTabChange(tab: string)
      modifies this`activeTab, this`amount, this`denoms, this`oldPin, this`newPin
      ensures Valid()
      ensures activeTab == tab && amount == Blank && denoms == map[] && oldPin == "" && newPin == ""
    {
      activeTab := tab;
      amount, denoms := Blank, map[];
      oldPin, newPin := "", "";
      TotalEmpty();
    }

    /** A sidebar button: `handleTabChange(tab); setMessage("")`. */
    method SelectTab(tab: string)
      modifies this`activeTab, this`amount, this`denoms, this`oldPin, this`newPin, this`message
      ensures Valid()
      ensures activeTab == tab && amount == Blank && denoms == map[] && oldPin == "" && newPin == ""
      ensures message == ""
    {
      HandleTabChange(tab);
      message := "";
    }

    /** Tapping "+v": one more note v, and v more on the amount. */
    method TapNote(v: int)
      requires Valid() && IsNote(v)
      modifies this`denoms, this`amount
      ensures Valid()
      ensures denoms == AddNote(old(denoms), v)
      ensures amount == Num(Numeric(old(amount)) + v)
    {
      TotalAddNote(denoms, v);
      denoms := AddNote(denoms, v);
      amount := Num(Numeric(amount) + v);
    }

    /** "Clear": the amount becomes 0 (not "") and the notes are forgotten. */
    method ClearNotes()
      modifies this`denoms, this`amount
      ensures Valid()
      ensures amount == Num(0) && denoms == map[]
    {
      amount, denoms := Num(0), map[];
      TotalEmpty();
    }

    method EditOldPin(value: string)
      modifies this`oldPin
      ensures oldPin == value
    {
      oldPin := value;
    }

    method EditNewPin(value: string)
      modifies this`newPin
      ensures newPin == value
    {
      newPin := value;
    }

    /** `showMessage` (the later clearing by a timer is not modelled). */
    method ShowMessage(msg: string)
      modifies this`message
      ensures message == ShownMessage(msg)
    {
      message := ShownMessage(msg);
    }

    /**
     * `handleDeposit`. Without a valid amount nothing is sent; otherwise the amount and
     * the note counts are sent, and on success the balance is updated and the data
     * refreshed. `reply` is the answer to the deposit request.
     */
    method HandleDeposit(reply: BalanceReply) returns (calls: seq<Call>)
      requires Valid()
      modifies this`balance, this`message
      ensures !AmountIsValid(amount) ==> calls == [] && message == InvalidAmount && balance == old(balance)
      ensures AmountIsValid(amount) ==> |calls| >= 1 && calls[0] == DepositCall(mobile, Numeric(amount), denoms)
      ensures AmountIsValid(amount) ==> ConsistentRequest(calls[0].amount, calls[0].denominations)
      ensures AmountIsValid(amount) && reply.NewBalance? ==>
        balance == reply.balance && message == DepositDone && calls[1..] == [FetchDataCall(mobile)]
      ensures AmountIsValid(amount) && reply.BalanceThrew? ==>
        balance == old(balance) && message == ShownMessage(ErrorText(reply.thrown, Unexpected)) && |calls| == 1
    {
      FixedMessagesShown();
      if !AmountIsValid(amount) {
        ShowMessage(InvalidAmount);
        return [];
      }
      calls := [DepositCall(mobile, Numeric(amount), denoms)];
      match reply
      case NewBalance(b) =>
        balance := b;
        ShowMessage(DepositDone);
        calls := calls + [FetchDataCall(mobile)];
      case BalanceThrew(t) =>
        ShowMessage(ErrorText(t, Unexpected));
    }

    /** `handleWithdraw`: as `HandleDeposit`, but only the amount is sent. */
    method HandleWithdraw(reply: BalanceReply) returns (calls: seq<Call>)
      modifies this`balance, this`message
      ensures !AmountIsValid(amount) ==> calls == [] && message == InvalidAmount && balance == old(balance)
      ensures AmountIsValid(amount) ==> |calls| >= 1 && calls[0] == WithdrawCall(mobile, Numeric(amount))
      ensures AmountIsValid(amount) && reply.NewBalance? ==>
        balance == reply.balance && message == WithdrawDone && calls[1..] == [FetchDataCall(mobile)]
      ensures AmountIsValid(amount) && reply.BalanceThrew? ==>
        balance == old(balance) && message == ShownMessage(ErrorText(reply.thrown, Unexpected)) && |calls| == 1
    {
      FixedMessagesShown();
      if !AmountIsValid(amount) {
        ShowMessage(InvalidAmount);
        return [];
      }
      calls := [WithdrawCall(mobile, Numeric(amount))];
      match reply
      case NewBalance(b) =>
        balance := b;
        ShowMessage(WithdrawDone);
        calls := calls + [FetchDataCall(mobile)];
      case BalanceThrew(t) =>
        ShowMessage(ErrorText(t, Unexpected));
    }

    /** `handleChangePin`: refuses unless both PIN fields are filled; clears them on success. */
    method HandleChangePin(reply: PinReply) returns (calls: seq<Call>)
      modifies this`message, this`oldPin, this`newPin
      ensures old(oldPin) == "" || old(newPin) == "" ==>
        calls == [] && message == BothPins && oldPin == old(oldPin) && newPin == old(newPin)
      ensures old(oldPin) != "" && old(newPin) != "" ==> calls == [ChangePinCall(mobile, old(oldPin), old(newPin))]
      ensures old(oldPin) != "" && old(newPin) != "" && reply.PinChanged? ==>
        message == ShownMessage(reply.text) && oldPin == "" && newPin == ""
      ensures old(oldPin) != "" && old(newPin) != "" && reply.PinThrew? ==>
        message == ShownMessage(ErrorText(reply.thrown, Unexpected)) && oldPin == old(oldPin) && newPin == old(newPin)
    {
      FixedMessagesShown();
      if oldPin == "" || newPin == "" {
        ShowMessage(BothPins);
        return [];
      }
      calls := [ChangePinCall(mobile, oldPin, newPin)];
      match reply
      case PinChanged(text) =>
        ShowMessage(text);
        oldPin, newPin := "", "";
      case PinThrew(t) =>
        ShowMessage(ErrorText(t, Unexpected));
    }

    /** Completion of `fetchData`: both values are set together, or a failure message is shown. */
    method ApplyFetchData(reply: FetchReply)
      modifies this`balance, this`transactions, this`message
      ensures reply.Fetched? ==>
        balance == reply.balance && transactions == reply.transactions && message == old(message)
      ensures reply.FetchThrew? ==>
        balance == old(balance) && transactions == old(transactions) && message == FetchFailed
    {
      match reply
      case Fetched(b, txs) =>
        balance, transactions := b, txs;
      case FetchThrew =>
        message := FetchFailed;
    }
  }
}
