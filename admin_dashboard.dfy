/**
 * The admin dashboard: the tap-to-build ATM deposit, the per-keystroke filter on the
 * three mobile-number inputs, the add-user duplicate check and error wording, the
 * delete-by-mobile lookup, and the per-user transaction view with its fallback.
 */
module AdminDashboard {
  import opened Service
  import opened Text
  import opened Denominations
  import Login

  const UserExists := "User already exists"
  const UserAdded := "User added successfully"
  const NoSuchMobile := "User not found with this mobile number"
  const NoTransactions := "No transactions for this user"
  const LoadFailed := "Failed to load transactions"
  const AtmDepositDone := "Deposit successful"
  const DeletedPrefix := "Deleted user "

  /** A user as the admin list shows it; an absent e-mail is "". */
  datatype User = User(id: string, name: string, mobile: string, balance: int, email: string)

  /** A transaction of the all-transactions list; its owner fields may be absent. */
  datatype AdminTx = AdminTx(kind: string, amount: int, userId: Option<string>, mobile: Option<string>)

  // Mobile-number inputs

  /** `/^[6-9][0-9]{0,9}$/.test(value) || value === ""` */
  function MobileFilterAccepts(value: string): (ok: bool)
    ensures ok <==> value == "" || (|value| <= 10 && IsMobileLead(value[0])
                                   && forall i :: 0 <= i < |value| ==> IsDigit(value[i]))
  {
    value == "" || (|value| <= 10 && IsMobileLead(value[0]) && AllDigits(value[1..]))
  }

  /** The `onChange` handler: a rejected edit keeps the previous value. */
  function FilterMobile(previous: string, value: string): (r: string)
    ensures r == value <==> MobileFilterAccepts(value) || value == previous
    ensures r != value ==> r == previous
    ensures MobileFilterAccepts(previous) ==> MobileFilterAccepts(r)
  {
    if MobileFilterAccepts(value) then value else previous
  }

  /** The field after a sequence of edits. */
  function TypeInto(field: string, edits: seq<string>): string
    decreases |edits|
  {
    if edits == [] then field else TypeInto(FilterMobile(field, edits[0]), edits[1..])
  }

  /**
   * Whatever is typed, a field that starts well formed (the initial "" is) stays well
   * formed: empty, or at most ten digits with the first in 6-9; and it only ever holds
   * the previous value or one of the edits.
   */
  lemma {:induction false} TypingKeepsMobileWellFormed(field: string, edits: seq<string>)
    requires MobileFilterAccepts(field)
    ensures MobileFilterAccepts(TypeInto(field, edits))
    ensures |TypeInto(field, edits)| <= 10
    ensures TypeInto(field, edits) == field || TypeInto(field, edits) in edits
    decreases |edits|
  {
    if edits != [] {
      var next := FilterMobile(field, edits[0]);
      TypingKeepsMobileWellFormed(next, edits[1..]);
      assert edits == [edits[0]] + edits[1..];
    }
  }

  /**
   * A number the login form accepts is one the filter lets through, and the filter's
   * ten-character values are exactly the numbers the login form accepts.
   */
  lemma ValidMobileIsFullFilteredInput(s: string)
    ensures Login.ValidateMobile(s) <==> MobileFilterAccepts(s) && |s| == 10
  {
  }

  // Add user

  /** `u.email && u.email.toLowerCase() === email.toLowerCase()` */
  predicate SameEmail(u: User, email: string)
  {
    u.email != "" && Lower(u.email) == Lower(email)
  }

  /** `users.some(u => u.mobile === mobile)` */
  function MobileTaken(users: seq<User>, mobile: string): (r: bool)
    ensures r <==> exists u :: u in users && u.mobile == mobile
  {
    if users == [] then false else users[0].mobile == mobile || MobileTaken(users[1..], mobile)
  }

  /** `users.some(u => u.email && u.email.toLowerCase() === email.toLowerCase())` */
  function EmailTaken(users: seq<User>, email: string): (r: bool)
    ensures r <==> exists u :: u in users && SameEmail(u, email)
  {
    if users == [] then false else SameEmail(users[0], email) || EmailTaken(users[1..], email)
  }

  /** Some listed user has this mobile, or this e-mail ignoring case. */
  ghost predicate IsRegistered(users: seq<User>, mobile: string, email: string)
  {
    exists u :: u in users && (u.mobile == mobile || SameEmail(u, email))
  }

  /**
   * The error the add-user call reports: the response body when it is a string, or,
   * for an object body, its `error`, else its `message`, else its JSON text (an empty
   * string stands for an absent or falsy field).
   */
  datatype ErrorPayload = TextError(text: string) | ObjectError(error: string, message: string, json: string)

  function ErrorMessage(e: ErrorPayload): (r: string)
    ensures e.TextError? ==> r == e.text
    ensures e.ObjectError? && e.error != "" ==> r == e.error
    ensures e.ObjectError? && e.error == "" && e.message != "" ==> r == e.message
    ensures e.ObjectError? && e.error == "" && e.message == "" ==> r == e.json
    ensures e.ObjectError? ==> (r == "" <==> e.error == "" && e.message == "" && e.json == "")
  {
    match e
    case TextError(t) => t
    case ObjectError(err, msg, json) => if err != "" then err else if msg != "" then msg else json
  }

  /** Empty, or (ignoring case) an internal server error, or "mobile" or "email" then "taken" on one line. */
  ghost predicate ReadsAsDuplicate(msg: string)
  {
    || msg == ""
    || Occurs(msg, InternalServerError)
    || OccursThenOnLine(msg, "mobile", "taken")
    || OccursThenOnLine(msg, "email", "taken")
  }

  /**
   * The wording of a failed add-user call: an empty message, an internal server error,
   * or "mobile ... taken" / "email ... taken" (ignoring case, on one line) all read
   * "User already exists"; any other message is shown as it is.
   */
  function NormaliseAddUserError(msg: string): (r: string)
    ensures ReadsAsDuplicate(msg) ==> r == UserExists
    ensures !ReadsAsDuplicate(msg) ==> r == msg
  {
    var m := if msg == "" || ContainsIgnoringCase(msg, InternalServerError) then UserExists else msg;
    var m' := if MatchesThenOnLine(m, "mobile", "taken") || MatchesThenOnLine(m, "email", "taken")
              then UserExists else m;
    if m' == "" then UserExists else m'
  }

  /**
   * A failed add-user call never leaves a blank message, so the final
   * `errorMsg || "User already exists"` adds nothing to the normalisation.
   */
  lemma AddUserFailureNeverBlank(e: ErrorPayload)
    ensures NormaliseAddUserError(ErrorMessage(e)) != ""
    ensures ErrorMessage(e) == "" ==> NormaliseAddUserError(ErrorMessage(e)) == UserExists
  {
  }

  // Lookups

  /** `users.find(u => u.mobile === mobile)`: the first user with that mobile. */
  function FindByMobile(users: seq<User>, mobile: string): (r: Option<User>)
    ensures r.None? <==> forall u :: u in users ==> u.mobile != mobile
    ensures r.Some? ==> exists k :: 0 <= k < |users| && users[k] == r.value && r.value.mobile == mobile
                                    && forall j :: 0 <= j < k ==> users[j].mobile != mobile
  {
    if users == [] then None
    else if users[0].mobile == mobile then Some(users[0])
    else
      var r := FindByMobile(users[1..], mobile);
      assert r.Some? ==> exists k :: 0 <= k < |users| && users[k] == r.value && r.value.mobile == mobile
                                     && forall j :: 0 <= j < k ==> users[j].mobile != mobile by {
        if r.Some? {
          var k :| 0 <= k < |users[1..]| && users[1..][k] == r.value && r.value.mobile == mobile
                   && forall j :: 0 <= j < k ==> users[1..][j].mobile != mobile;
          assert users[k + 1] == r.value;
          assert forall j :: 0 <= j < k + 1 ==> users[j].mobile != mobile by {
            forall j | 0 <= j < k + 1 ensures users[j].mobile != mobile {
              if j > 0 { assert users[j] == users[1..][j - 1]; }
            }
          }
        }
      }
      r
  }

  /** `t.userId === user.id || t.mobile === user.mobile` */
  predicate BelongsTo(t: AdminTx, u: User)
  {
    t.userId == Some(u.id) || t.mobile == Some(u.mobile)
  }

  /** `xs` is `ys` with some elements left out. */
  predicate IsSubsequence<T(==)>(xs: seq<T>, ys: seq<T>)
    decreases |xs| + |ys|
  {
    if xs == [] then true
    else if ys == [] then false
    else (xs[0] == ys[0] && IsSubsequence(xs[1..], ys[1..])) || IsSubsequence(xs, ys[1..])
  }

  /** `transactions.filter(t => t.userId === user.id || t.mobile === user.mobile)` */
  function FallbackTransactions(txs: seq<AdminTx>, u: User): (r: seq<AdminTx>)
    ensures forall t :: t in r ==> BelongsTo(t, u)
    ensures forall t :: BelongsTo(t, u) ==> multiset(r)[t] == multiset(txs)[t]
    ensures IsSubsequence(r, txs)
  {
    if txs == [] then []
    else
      var rest := FallbackTransactions(txs[1..], u);
      assert txs == [txs[0]] + txs[1..];
      if BelongsTo(txs[0], u) then [txs[0]] + rest else rest
  }

  // The dashboard's state

  /** The admin requests the page sends (each also carries the admin's mobile). */
  datatype AdminCall =
    | DepositAtmCall(amount: int, denominations: map<int, nat>)
    | AddUserCall(name: string, mobile: string, email: string, pin: string)
    | DeleteUserCall(id: string)
    | FetchUsersCall
    | UserTransactionsCall(id: string)

  /** The reply of `depositATM`: its body, when it is a string, or a failure. */
  datatype AtmReply = AtmReplied(text: Option<string>) | AtmFailed

  /** The reply of `addUser`, which never throws. */
  datatype AddUserReply = Added | NotAdded(error: ErrorPayload)

  /** The reply of `getUserTransactions`, which never throws. */
  datatype TxReply = TxLoaded(list: seq<AdminTx>) | TxFailed(error: string)

  class AdminDashboard {
    const adminMobile: string
    var users: seq<User>
    var transactions: seq<AdminTx>
    var depositAmount: int
    var atmDenoms: map<int, nat>
    var message: string
    var addUserName: string
    var addUserMobile: string
    var addUserEmail: string
    var addUserPin: string
    var deleteUserId: string
    var specificUserId: string
    var specificTransactions: seq<AdminTx>
    var specificTried: bool
    var activePanel: string

    /**
     * The deposit total is the value of the tapped notes, only offered notes are
     * counted, and the three filtered mobile fields are well formed.
     */
    ghost predicate Valid()
      reads this
    {
      && OnlyNotes(atmDenoms) && depositAmount == Total(atmDenoms)
      && MobileFilterAccepts(addUserMobile) && MobileFilterAccepts(deleteUserId)
      && MobileFilterAccepts(specificUserId)
    }

    constructor (adminMobile: string)
      ensures Valid()
      ensures this.adminMobile == adminMobile && users == [] && transactions == []
      ensures depositAmount == 0 && atmDenoms == map[] && message == ""
      ensures addUserName == "" && addUserMobile == "" && addUserEmail == "" && addUserPin == ""
      ensures deleteUserId == "" && specificUserId == "" && specificTransactions == []
      ensures !specificTried && activePanel == ""
    {
      this.adminMobile := adminMobile;
      users, transactions := [], [];
      depositAmount, atmDenoms, message := 0, map[], "";
      addUserName, addUserMobile, addUserEmail, addUserPin := "", "", "", "";
      deleteUserId, specificUserId, specificTransactions := "", "", [];
      specificTried, activePanel := false, "";
      TotalEmpty();
    }

    /** Completion of `fetchUsers`. */
    method LoadUsers(list: seq<User>)
      modifies this`users
      ensures users == list
    {
      users := list;
    }

    /** Completion of `fetchTransactions`. */
    method LoadTransactions(list: seq<AdminTx>)
      modifies this`transactions
      ensures transactions == list
    {
      transactions := list;
    }

    /** A sidebar button: `setActivePanel(panel); setMessage("")`. */
    method SelectPanel(panel: string)
      modifies this`activePanel, this`message
      ensures activePanel == panel && message == ""
    {
      activePanel, message := panel, "";
    }

    // ATM deposit

    /** Tapping "+v": one more note v, and v more on the deposit amount. */
    method TapNote(v: int)
      requires Valid() && IsNote(v)
      modifies this`atmDenoms, this`depositAmount
      ensures Valid()
      ensures atmDenoms == AddNote(old(atmDenoms), v) && depositAmount == old(depositAmount) + v
    {
      TotalAddNote(atmDenoms, v);
      atmDenoms := AddNote(atmDenoms, v);
      depositAmount := depositAmount + v;
    }

    /** "Clear": amount 0 and no notes. */
    method ClearNotes()
      requires Valid()
      modifies this`atmDenoms, this`depositAmount
      ensures Valid()
      ensures depositAmount == 0 && atmDenoms == map[]
    {
      depositAmount, atmDenoms := 0, map[];
      TotalEmpty();
    }

    /**
     * The Deposit button. Nothing is sent without an admin or with an amount of 0 or
     * less; otherwise the amount and note counts are sent, and once the call answers
     * the reply (or a default) is shown and the amount and notes are reset.
     */
    method SubmitDeposit(reply: AtmReply) returns (calls: seq<AdminCall>)
      requires Valid()
      modifies this`message, this`atmDenoms, this`depositAmount
      ensures Valid()
      ensures adminMobile == "" || old(depositAmount) <= 0 ==> calls == [] && unchanged(this)
      ensures adminMobile != "" && old(depositAmount) > 0 ==>
        calls == [DepositAtmCall(old(depositAmount), old(atmDenoms))]
        && ConsistentRequest(old(depositAmount), old(atmDenoms))
      ensures adminMobile != "" && old(depositAmount) > 0 && reply.AtmReplied? ==>
        message == (if reply.text.Some? then reply.text.value else AtmDepositDone)
        && depositAmount == 0 && atmDenoms == map[]
      ensures reply.AtmFailed? ==> unchanged(this)
    {
      if adminMobile == "" || depositAmount <= 0 {
        return [];
      }
      calls := [DepositAtmCall(depositAmount, atmDenoms)];
      if reply.AtmReplied? {
        message := if reply.text.Some? then reply.text.value else AtmDepositDone;
        depositAmount, atmDenoms := 0, map[];
        TotalEmpty();
      }
    }

    // Add user

    method EditAddUserName(value: string)
      modifies this`addUserName
      ensures addUserName == value
    {
      addUserName := value;
    }

    method EditAddUserEmail(value: string)
      modifies this`addUserEmail
      ensures addUserEmail == value
    {
      addUserEmail := value;
    }

    method EditAddUserPin(value: string)
      modifies this`addUserPin
      ensures addUserPin == value
    {
      addUserPin := value;
    }

    method EditAddUserMobile(value: string)
      requires Valid()
      modifies this`addUserMobile
      ensures Valid()
      ensures addUserMobile == FilterMobile(old(addUserMobile), value)
    {
      addUserMobile := FilterMobile(addUserMobile, value);
    }

    predicate AddUserFormFilled()
      reads this
    {
      adminMobile != "" && addUserName != "" && addUserMobile != "" && addUserEmail != "" && addUserPin != ""
    }

    /**
     * `handleAddUser`. An unfilled form does nothing. A mobile or e-mail that a listed
     * user already has shows "User already exists" and sends nothing. Otherwise the
     * user is sent; on success the form is cleared and the list refreshed, on failure
     * the normalised error is shown.
     */
    method HandleAddUser(reply: AddUserReply) returns (calls: seq<AdminCall>)
      requires Valid()
      modifies this`message, this`addUserName, this`addUserMobile, this`addUserEmail, this`addUserPin
      ensures Valid()
      ensures !old(AddUserFormFilled()) ==> calls == [] && unchanged(this)
      ensures old(AddUserFormFilled()) && IsRegistered(users, old(addUserMobile), old(addUserEmail)) ==>
        calls == [] && message == UserExists
        && addUserName == old(addUserName) && addUserMobile == old(addUserMobile)
        && addUserEmail == old(addUserEmail) && addUserPin == old(addUserPin)
      ensures old(AddUserFormFilled()) && !IsRegistered(users, old(addUserMobile), old(addUserEmail)) ==>
        |calls| >= 1
        && calls[0] == AddUserCall(old(addUserName), old(addUserMobile), old(addUserEmail), old(addUserPin))
      ensures old(AddUserFormFilled()) && !IsRegistered(users, old(addUserMobile), old(addUserEmail))
              && reply.Added? ==>
        calls[1..] == [FetchUsersCall] && message == UserAdded
        && addUserName == "" && addUserMobile == "" && addUserEmail == "" && addUserPin == ""
      ensures old(AddUserFormFilled()) && !IsRegistered(users, old(addUserMobile), old(addUserEmail))
              && reply.NotAdded? ==>
        |calls| == 1 && message == NormaliseAddUserError(ErrorMessage(reply.error))
        && addUserName == old(addUserName) && addUserMobile == old(addUserMobile)
        && addUserEmail == old(addUserEmail) && addUserPin == old(addUserPin)
    {
      if !AddUserFormFilled() {
        return [];
      }
      var mobileExists := MobileTaken(users, addUserMobile);
      var emailExists := EmailTaken(users, addUserEmail);
      if mobileExists || emailExists {
        message := UserExists;
        return [];
      }
      calls := [AddUserCall(addUserName, addUserMobile, addUserEmail, addUserPin)];
      match reply
      case Added =>
        message := UserAdded;
        addUserName, addUserMobile, addUserEmail, addUserPin := "", "", "", "";
        calls := calls + [FetchUsersCall];
      case NotAdded(error) =>
        message := NormaliseAddUserError(ErrorMessage(error));
    }

    // Delete user

    method EditDeleteMobile(value: string)
      requires Valid()
      modifies this`deleteUserId
      ensures Valid()
      ensures deleteUserId == FilterMobile(old(deleteUserId), value)
    {
      deleteUserId := FilterMobile(deleteUserId, value);
    }

    /** The Cancel button of the delete panel. */
    method CancelDelete()
      requires Valid()
      modifies this`deleteUserId
      ensures Valid() && deleteUserId == ""
    {
      deleteUserId := "";
    }

    /**
     * `handleDeleteUser(userId)`: sends the deletion; `deleted` says whether the call
     * succeeded, in which case the result is shown and the list refreshed.
     */
    method HandleDeleteUser(userId: string, deleted: bool) returns (calls: seq<AdminCall>)
      modifies this`message
      ensures adminMobile == "" ==> calls == [] && message == old(message)
      ensures adminMobile != "" && deleted ==>
        calls == [DeleteUserCall(userId), FetchUsersCall] && message == DeletedPrefix + userId
      ensures adminMobile != "" && !deleted ==> calls == [DeleteUserCall(userId)] && message == old(message)
    {
      if adminMobile == "" {
        return [];
      }
      calls := [DeleteUserCall(userId)];
      if deleted {
        message := DeletedPrefix + userId;
        calls := calls + [FetchUsersCall];
      }
    }

    /**
     * The Delete User button: deletes the first listed user with the typed mobile, or
     * says that there is none; the field is cleared after a successful deletion.
     */
    method DeleteByMobile(deleted: bool) returns (calls: seq<AdminCall>)
      requires Valid()
      modifies this`message, this`deleteUserId
      ensures Valid()
      ensures adminMobile == "" || old(deleteUserId) == "" ==> calls == [] && unchanged(this)
      ensures adminMobile != "" && old(deleteUserId) != "" && (forall u :: u in users ==> u.mobile != old(deleteUserId)) ==>
        calls == [] && message == NoSuchMobile && deleteUserId == old(deleteUserId)
      ensures adminMobile != "" && old(deleteUserId) != "" && FindByMobile(users, old(deleteUserId)).Some? ==>
        var u := FindByMobile(users, old(deleteUserId)).value;
        u in users && u.mobile == old(deleteUserId)
        && calls == [DeleteUserCall(u.id)] + (if deleted then [FetchUsersCall] else [])
        && (deleted ==> message == DeletedPrefix + u.id && deleteUserId == "")
        && (!deleted ==> message == old(message) && deleteUserId == old(deleteUserId))
    {
      if adminMobile == "" || deleteUserId == "" {
        return [];
      }
      var found := FindByMobile(users, deleteUserId);
      match found
      case Some(u) =>
        calls := HandleDeleteUser(u.id, deleted);
        if deleted {
          deleteUserId := "";
        }
      case None =>
        message := NoSuchMobile;
        calls := [];
    }

    // One user's transactions

    method EditSpecificMobile(value: string)
      requires Valid()
      modifies this`specificUserId
      ensures Valid()
      ensures specificUserId == FilterMobile(old(specificUserId), value)
    {
      specificUserId := FilterMobile(specificUserId, value);
    }

    /**
     * The View Transactions button. The typed mobile is looked up among the listed
     * users; their transactions are requested, and when that fails the list already
     * loaded is filtered for them instead, if that finds any.
     */
    method ViewUserTransactions(reply: TxReply) returns (calls: seq<AdminCall>)
      requires Valid()
      modifies this`message, this`specificTransactions, this`specificTried
      ensures Valid()
      ensures adminMobile == "" || specificUserId == "" ==> calls == [] && unchanged(this)
      ensures adminMobile != "" && specificUserId != "" && FindByMobile(users, specificUserId).None? ==>
        calls == [] && message == NoSuchMobile && specificTransactions == [] && specificTried
      ensures adminMobile != "" && specificUserId != "" && FindByMobile(users, specificUserId).Some? ==>
        var u := FindByMobile(users, specificUserId).value;
        var fallback := FallbackTransactions(transactions, u);
        && calls == [UserTransactionsCall(u.id)] && specificTried
        && (reply.TxLoaded? ==>
              specificTransactions == reply.list
              && message == (if reply.list == [] then NoTransactions else old(message)))
        && (reply.TxFailed? && fallback != [] ==> specificTransactions == fallback && message == "")
        && (reply.TxFailed? && fallback == [] ==>
              specificTransactions == [] && message == (if reply.error == "" then LoadFailed else reply.error))
    {
      if adminMobile == "" || specificUserId == "" {
        return [];
      }
      var found := FindByMobile(users, specificUserId);
      if found.None? {
        message := NoSuchMobile;
        specificTransactions, specificTried := [], true;
        return [];
      }
      var u := found.value;
      calls := [UserTransactionsCall(u.id)];
      match reply
      case TxLoaded(list) =>
        specificTransactions, specificTried := list, true;
        if |list| == 0 {
          message := NoTransactions;
        }
      case TxFailed(error) =>
        if |transactions| > 0 {
          var filtered := FallbackTransactions(transactions, u);
          if |filtered| > 0 {
            specificTransactions, specificTried := filtered, true;
            message := "";
            return;
          }
        }
        message := if error == "" then LoadFailed else error;
        specificTransactions, specificTried := [], true;
    }
  }
}
