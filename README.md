# ATM front end: client-side logic

A model of the sequential client logic of a React front end for an ATM demo. The
backend is not part of this model: it holds the accounts, the ATM's cash inventory,
the balances and the transaction ledger. The pages themselves do the following, and
that is what is modelled:

- **Tap-to-build amounts.** The admin's ATM deposit panel and the customer's deposit
  and withdraw tabs build an amount by tapping "+50", "+100", "+200" or "+500". Each
  tap adds one note to a count map and the note's value to a running amount. "Clear"
  resets both. `Denominations` defines the count map (a missing key reads as 0), one
  tap (`AddNote`) and the value the counts stand for (`Total`, the sum of v·count[v]).
  Both dashboards are classes whose `Valid()` invariant says that the amount on screen
  equals `Total` of the counts and that only offered notes are counted. The
  constructor establishes the invariant and every handler keeps it. So it holds after
  any sequence of taps, clears, submissions and tab changes.
- **Input validation.** The login form's mobile and PIN validators, the order in which
  `handleSubmit` checks them, and the keystroke filter on the admin's three
  mobile-number inputs. These are written as character predicates, not as a regex
  engine (`Text`, `Login`, `AdminDashboard`).
- **Admin user management.** The duplicate check before adding a user (same mobile,
  or same e-mail ignoring case). The normalisation of backend error messages. The
  delete-by-mobile lookup. The per-user transaction view, which falls back to
  filtering the already loaded list.
- **Login dispatch and routing.** A login result goes to the admin or the user
  callback depending on its properties. `App` keeps the signed-in user and admin and
  picks the page to show from them.

Backend calls are abstract. A handler returns the requests it sends, as values. The
reply to an awaited call is a parameter of the handler. A handler may start a
refresh after a successful call without waiting for it (`fetchUsers`, `fetchData`).
Such a refresh appears only as an issued request. Its completion is a separate method
(`LoadUsers`, `ApplyFetchData`). The fetches made on mount are not issued at all (see
"Left out").

JavaScript values are modelled as follows:

- `number | ""` becomes `Blank | Num(n)`, where `Number("")` reads as 0.
- Falsy strings and absent string fields become `""`.
- A login result is `Falsy`, or an object with its role, its own property names and
  its mobile.

The `i` flag of the regular expressions folds ASCII letters only. For the ASCII
patterns used here, this is what a non-Unicode JavaScript regex does. A regex `.`
does not match the four JavaScript line terminators.

## Model

| member | source | states |
|---|---|---|
| Text.AllDigits | src/Pages/Login.tsx:24 | `\d*` holds iff every character is a digit |
| Text.ContainsIgnoringCase | src/Pages/DashBoard.tsx:63 | the search for a lower-case pattern succeeds iff the pattern occurs at some position, ignoring case |
| Text.MatchesThenOnLine | src/Pages/AdminDashBoard.tsx:99 | `/a.*b/i` holds iff some match of `a` is followed by a match of `b` with no line terminator between them |
| Service.ErrorText | src/Pages/Login.tsx:52-57 | a thrown `Error` gives its message; any other thrown value gives the caller's fallback ("Server error" at login, "An unexpected error occurred." on the dashboard) |
| Denominations.AddNote | src/Pages/AdminDashBoard.tsx:178 | a tap on v adds key v, raises v's count by one (a missing key counts as 0) and leaves every other count unchanged |
| Denominations.SumOverAddNote | src/Pages/AdminDashBoard.tsx:177-180 | over distinct note values, one tap on v raises the weighted sum by v if v is among them, and by nothing otherwise |
| Denominations.TotalAddNote | src/Pages/AdminDashBoard.tsx:177-180 | a tap on an offered note adds exactly its value to the total of the counts, which keeps amount and counts in step |
| Denominations.TotalEmpty | src/Pages/AdminDashBoard.tsx:184 | the cleared count map stands for 0 |
| Denominations.TotalPositiveIff | src/Pages/AdminDashBoard.tsx:188 | the total is never negative, and it is positive iff some offered note has a positive count |
| Denominations.TapAllCounts | src/Pages/AdminDashBoard.tsx:162-180 | after any sequence of taps from `{}`, each count is the number of times that note was tapped, and the keys are exactly the tapped notes |
| Denominations.TapAllTotal | src/Pages/AdminDashBoard.tsx:162-180 | after any sequence of taps on offered notes, only offered notes are keys and the total is the sum of the tapped values |
| Login.ValidateMobile | src/Pages/Login.tsx:22-25 | accepts iff the length is 10, the first character is 6-9 and every character is a digit |
| Login.ValidatePin | src/Pages/Login.tsx:27-29 | accepts iff the length is 6 and every character is a digit |
| Login.CheckCredentials | src/Pages/Login.tsx:33-40 | passes iff both validators accept; a bad mobile gives the mobile message whatever the PIN; a good mobile with a bad PIN gives the PIN message |
| Login.LooksLikeAdmin | src/Pages/Login.tsx:47 | holds only for a truthy result, and then iff its role is "admin" or it has an own `adminName` or `isAdmin` property |
| Login.Route | src/Pages/Login.tsx:47-51 | the result goes to the admin callback iff that callback exists and the result is truthy with role "admin" or an own `adminName` or `isAdmin`; otherwise it goes to the user callback; the result is passed on unchanged |
| Login.UserCallbackIsTheDefault | src/Pages/Login.tsx:47-51 | a falsy result, or any result when no admin callback is supplied, goes to the user callback |
| Login.LoginForm.constructor | src/Pages/Login.tsx:18-20 | mobile, PIN and message start empty |
| Login.LoginForm.EditMobile | src/Pages/Login.tsx:71 | the mobile field takes the typed value |
| Login.LoginForm.EditPin | src/Pages/Login.tsx:79 | the PIN field takes the typed value |
| Login.LoginForm.HandleSubmit | src/Pages/Login.tsx:31-59 | `loginUser` is called iff both validators accept; otherwise the message is the validation error and nothing is dispatched; a returned result is shown and routed; a throw shows the error's message or "Server error" |
| App.SelectView | src/App.tsx:32-37 | the login page iff neither user nor admin is set; the admin page (with the admin's mobile) whenever an admin is set, whatever the user; the dashboard when only a user is set |
| App.AppState.constructor | src/App.tsx:14-15 | both fields start unset, so the login page shows |
| App.AppState.HandleLogin | src/App.tsx:17-19 | sets the user and leaves the admin unchanged |
| App.AppState.HandleAdminLogin | src/App.tsx:21-23 | sets the admin and leaves the user unchanged |
| App.AppState.HandleLogout | src/App.tsx:25-28 | clears both fields, so the next view is the login page |
| App.SubmitLogin | src/App.tsx:33 | with both callbacks wired, a failed validation or a throw keeps the login page; an admin-looking result opens the admin page; another truthy result opens the dashboard; a falsy one stays on the login page |
| Dashboard.AmountIsValid | src/Pages/DashBoard.tsx:72 | the guard `!amount \|\| amount <= 0` lets an amount through iff its numeric value is positive, where "" is 0 |
| Dashboard.ShownMessage | src/Pages/DashBoard.tsx:62-67 | the message is cleared iff it is empty or contains "internal server error" ignoring case; otherwise it is shown as it is |
| Dashboard.FixedMessagesShown | src/Pages/DashBoard.tsx:72 | the page's own messages ("Enter a valid amount." and the success and PIN messages) pass the filter unchanged |
| Dashboard.Dashboard.constructor | src/Pages/DashBoard.tsx:27-34 | the initial state: amount "", no notes, empty PIN fields and message, the balance tab, and the sum invariant holds |
| Dashboard.Dashboard.HandleTabChange | src/Pages/DashBoard.tsx:37-43 | sets the tab and resets the amount to "", the notes to `{}` and both PIN fields to "" |
| Dashboard.Dashboard.SelectTab | src/Pages/DashBoard.tsx:118-122 | a tab change that also clears the message |
| Dashboard.Dashboard.TapNote | src/Pages/DashBoard.tsx:147-150 | the notes get one more v; the amount becomes `Number(prev) + v`; the sum invariant is kept |
| Dashboard.Dashboard.ClearNotes | src/Pages/DashBoard.tsx:154 | the amount becomes 0 (not "") and the notes `{}` |
| Dashboard.Dashboard.EditOldPin | src/Pages/DashBoard.tsx:192 | the old-PIN field takes the typed value |
| Dashboard.Dashboard.EditNewPin | src/Pages/DashBoard.tsx:200 | the new-PIN field takes the typed value |
| Dashboard.Dashboard.ShowMessage | src/Pages/DashBoard.tsx:62-69 | the message becomes the filtered text |
| Dashboard.Dashboard.HandleDeposit | src/Pages/DashBoard.tsx:71-84 | an amount that is "" or not positive shows "Enter a valid amount." and sends nothing; otherwise the amount is sent with the note counts, and these add up to it; a success sets the balance, shows the success message and refreshes; a throw shows the filtered error |
| Dashboard.Dashboard.HandleWithdraw | src/Pages/DashBoard.tsx:86-99 | the same guard; only the amount is sent, without the note counts; success and failure as for deposit |
| Dashboard.Dashboard.HandleChangePin | src/Pages/DashBoard.tsx:101-112 | refuses with "Enter both old and new PIN." unless both fields are non-empty; otherwise sends both PINs; a reply is shown (filtered) and clears the fields; a throw keeps them |
| Dashboard.Dashboard.ApplyFetchData | src/Pages/DashBoard.tsx:46-55 | balance and transactions are set together, or the fetch-failure message is set and both are kept |
| AdminDashboard.MobileFilterAccepts | src/Pages/AdminDashBoard.tsx:211 | accepts iff the value is empty, or is at most 10 characters, all digits, with the first in 6-9 |
| AdminDashboard.FilterMobile | src/Pages/AdminDashBoard.tsx:211-213 | the field takes the edit iff the filter accepts it (or it equals the old value), keeps the old value otherwise, and stays well formed if it was |
| AdminDashboard.TypingKeepsMobileWellFormed | src/Pages/AdminDashBoard.tsx:208-214 | from a well-formed field, any sequence of edits leaves it well formed, at most 10 characters, and equal to the start value or one of the edits |
| AdminDashboard.ValidMobileIsFullFilteredInput | src/Pages/AdminDashBoard.tsx:211 | the login validator (src/Pages/Login.tsx:24) accepts exactly the filter-accepted values of length 10, so every valid login mobile gets through the filter |
| AdminDashboard.MobileTaken | src/Pages/AdminDashBoard.tsx:73 | true iff some listed user has exactly that mobile |
| AdminDashboard.EmailTaken | src/Pages/AdminDashBoard.tsx:74 | true iff some listed user has a non-empty e-mail equal to it ignoring case |
| AdminDashboard.ErrorMessage | src/Pages/AdminDashBoard.tsx:90-94 | a string body is taken as it is; an object body gives its `error`, else its `message`, else its JSON text, and is empty only when all three are |
| AdminDashboard.AddUserFailureNeverBlank | src/Pages/AdminDashBoard.tsx:90-103 | the extracted and normalised add-user error is never blank (a blank extraction reads "User already exists"), so the final fallback `errorMsg \|\| "User already exists"` adds nothing |
| AdminDashboard.NormaliseAddUserError | src/Pages/AdminDashBoard.tsx:95-102 | an empty message, an internal server error, or "mobile…taken" / "email…taken" on one line (ignoring case) becomes "User already exists"; any other message is unchanged |
| AdminDashboard.FindByMobile | src/Pages/AdminDashBoard.tsx:241 | none iff no listed user has that mobile; otherwise the first listed user with it |
| AdminDashboard.FallbackTransactions | src/Pages/AdminDashBoard.tsx:298 | keeps exactly the transactions whose user id or mobile is the user's, each as often as in the list, in list order |
| AdminDashboard.AdminDashboard.constructor | src/Pages/AdminDashBoard.tsx:33-49 | the initial state: no users or transactions, amount 0, no notes, empty fields; the invariant holds |
| AdminDashboard.AdminDashboard.LoadUsers | src/Pages/AdminDashBoard.tsx:51-55 | the fetched list replaces the users |
| AdminDashboard.AdminDashboard.LoadTransactions | src/Pages/AdminDashBoard.tsx:57-61 | the fetched list replaces the transactions |
| AdminDashboard.AdminDashboard.SelectPanel | src/Pages/AdminDashBoard.tsx:140-145 | opens the panel and clears the message |
| AdminDashboard.AdminDashboard.TapNote | src/Pages/AdminDashBoard.tsx:177-180 | one more note v and v more on the amount; the sum invariant is kept |
| AdminDashboard.AdminDashboard.ClearNotes | src/Pages/AdminDashBoard.tsx:184 | amount 0 and no notes |
| AdminDashboard.AdminDashboard.SubmitDeposit | src/Pages/AdminDashBoard.tsx:187-194 | sends nothing and changes nothing without an admin or with amount ≤ 0; otherwise sends the amount with counts that add up to it; a reply is shown (a non-string reply as "Deposit successful") and amount and notes are reset; a failed call changes nothing |
| AdminDashboard.AdminDashboard.EditAddUserName | src/Pages/AdminDashBoard.tsx:201 | the name field takes the typed value |
| AdminDashboard.AdminDashboard.EditAddUserEmail | src/Pages/AdminDashBoard.tsx:216 | the e-mail field takes the typed value |
| AdminDashboard.AdminDashboard.EditAddUserPin | src/Pages/AdminDashBoard.tsx:217 | the PIN field takes the typed value |
| AdminDashboard.AdminDashboard.EditAddUserMobile | src/Pages/AdminDashBoard.tsx:208-214 | the field takes the edit if the filter accepts it and keeps its old value otherwise |
| AdminDashboard.AdminDashboard.HandleAddUser | src/Pages/AdminDashBoard.tsx:70-104 | an unfilled form does nothing; a listed user with the same mobile, or the same e-mail ignoring case, gives "User already exists" and no call; otherwise the user is sent; success clears the form and refreshes; failure shows the normalised error |
| AdminDashboard.AdminDashboard.EditDeleteMobile | src/Pages/AdminDashBoard.tsx:231-236 | filtered like the add-user mobile field |
| AdminDashboard.AdminDashboard.CancelDelete | src/Pages/AdminDashBoard.tsx:249 | clears the delete field |
| AdminDashboard.AdminDashboard.HandleDeleteUser | src/Pages/AdminDashBoard.tsx:63-68 | without an admin nothing is sent; otherwise the deletion is sent, and on success "Deleted user <id>" is shown and the list is refreshed |
| AdminDashboard.AdminDashboard.DeleteByMobile | src/Pages/AdminDashBoard.tsx:238-248 | an empty field does nothing; an unknown mobile gives "User not found with this mobile number" and sends nothing; otherwise exactly one deletion of the first user with that mobile is sent, followed by one refresh only if it succeeds, and the field is cleared on success |
| AdminDashboard.AdminDashboard.EditSpecificMobile | src/Pages/AdminDashBoard.tsx:276-281 | filtered like the add-user mobile field |
| AdminDashboard.AdminDashboard.ViewUserTransactions | src/Pages/AdminDashBoard.tsx:283-329 | an unknown mobile gives the not-found message and an empty list; a loaded list is shown ("No transactions for this user" when empty); a failed load falls back to filtering the loaded transactions, and when that finds none the error (or "Failed to load transactions") is shown with an empty list |

## Left out

- The HTTP wrappers in src/service/api.ts and src/service/AdminApi.ts are not part of this model. Each call is a request value, and its reply is a parameter.
- Server-side state is not computed by these pages, so none of it is modelled: the ATM cash inventory and balance, the dispensing of notes on withdrawal, account balances and the ledger.
- Timing and interleaving are left out. This covers the 5-second polling of the ATM balance and transactions, and the timers that clear messages and animations. A handler's awaited reply is taken as arriving before any other event, so taps made while a request is pending are not modelled.
- Rendering is left out: JSX, CSS classes, animation state, the balance display and the name lookup for the all-transactions list. The admin logout (`window.location.reload()`) is also left out. The "Login result: " message is modelled, but `JSON.stringify` is not computed: its text is a field of the login reply.
- Every handler may be called in any state. The handlers are not restricted to the panel or tab that shows their controls.
- Browser `maxLength` and `required` limits on inputs are enforced by the browser, not by the page's code. The unused `showDeleteUser` flag is also left out.
- `handleDeleteUserForm` and `handleViewSpecificTransactions` (src/Pages/AdminDashBoard.tsx:106-120) are defined but not wired to any control.
- The `catch` branch at src/Pages/AdminDashBoard.tsx:310-323 is unreachable for well-formed responses: `getUserTransactions` never rejects, and the fallback filter over `AdminTx` values cannot throw. A malformed all-transactions list (a null entry, or a non-JSON string body) would make line 298 throw and show "Failed to load transactions" with an empty list. The model does not capture that.
- The fetches made on mount are not issued by the constructors. These are `fetchData()` at src/Pages/DashBoard.tsx:57-60 and `fetchUsers`/`fetchTransactions`/`fetchATMBalance` at src/Pages/AdminDashBoard.tsx:122-126. Their completions are the methods `Dashboard.Dashboard.ApplyFetchData`, `AdminDashboard.AdminDashboard.LoadUsers` and `AdminDashboard.AdminDashboard.LoadTransactions`. The fetch of the ATM balance is left out with the rest of the server state.
- JavaScript numbers are modelled as unbounded integers. There is no safe-integer overflow and no `NaN`.
- Response bodies are abstract: an error payload holds its `error`, `message` and JSON text, a login result its role, own property names and mobile. Strict equality on ids is equality of strings.
- Dashboard.Dashboard.TapNote and the other handlers do not model the Dashboard's early `return null` for a user object without `mobile` or `name`; that affects rendering only.
- AdminDashboard.EmailTaken: e-mails are compared with ASCII case folding. `toLowerCase` folds the whole of Unicode, so for non-ASCII e-mails the model is an approximation.
