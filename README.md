# Banking app: front-end state and authentication registry

A model of the logic of a small banking application: an Angular front end and a
Spring authentication back end. The model covers:

- **Account-type classifier.** The pipe that maps any account-type tag to SAVING,
  CURRENT or a fallback, as a label or normalised.
- **Chat thread store.** Threads persisted in the browser's storage. The chatbot
  page prepends, deletes and selects threads, appends messages to the active
  thread, and attaches each assistant reply to whichever thread is active when it
  arrives.
- **Operation history.** The account page's scroll pagination state machine
  (`opsList`, `nextPageToLoad`, `hasMoreOps`, `loadingMore`), with append versus
  replace semantics. The page also dispatches the operation form to debit, credit
  or transfer.
- **Dashboard aggregation.** Per-type counts of operations and accounts,
  three-element previews next to full totals, the total balance, the eight
  accounts with the largest balances, and the filter of accounts by customer.
- **Client session.** Tokens and user in storage, the authenticated flag,
  logout, refresh, and error mapping. The profile page's password form and its
  match validator.
- **Server registry.** Registration and password change with their guards, which
  keep usernames and emails unique when requests run one at a time. Token refresh, login and lookups. Loading a
  user's security record. The bean-validation constraints of the request records.

Each Angular component or service that updates its fields is a `class` whose
methods state the whole new state.
- Every HTTP call a component issues is appended to a `requests` log field.
- Every reply or failure is an explicit handler method.
- The browser's storage is a `map`, and the JSON round trip is the identity.
- Pure logic, such as the pipe, the filters, the validators, the sort and the
  registry steps, consists of functions, with lemmas for its properties.

On the server, `UserServiceImpl` is a class over two tables:
- users, keyed by username;
- roles, keyed by role name.

Its methods are tied to the pure functions `Registered` and `PasswordChangedIn`.
The lemmas about those functions prove:
- the order of the checks;
- that a failure leaves the store unchanged;
- exactly what a success adds or changes;
- that the registry invariant `Consistent` is kept: unique emails, unique ids,
  and tables keyed by their unique column.

The pieces the code only calls are parameters: the password encoder, the JWT
service and the authentication manager (as function-valued fields), and the
clock, `Math.random` and the database id generator.

Money is an unbounded integer: both sides use floating point for balances, and no
rounding is modelled. JavaScript truthiness is written out at each use:
- `x || default`;
- `Number(balance) || 0`;
- `String(undefined)` is `"undefined"`.

`trim()` uses the ECMAScript white-space set.

Files, one module each: `wrappers.dfy`, `strings.dfy`, `sequences.dfy` (shared
helpers), `account_model.dfy`, `auth_model.dfy`, `entities.dfy` (data shapes), and one
file per modelled source file.

## Model

| member | source | states |
|---|---|---|
| Strings.Trim | angular-banking-frontend/src/app/services/chat.service.ts:46 | the input less a blank prefix and a blank suffix and nothing else: a piece of it that starts and ends with a non-white-space character, empty exactly when the input is blank |
| Strings.ToUpper | angular-banking-frontend/src/app/shared/account-type.pipe.ts:11 | same length, each character upper-cased |
| Strings.TrimIdempotent | angular-banking-frontend/src/app/services/chat.service.ts:46 | trimming a trimmed string changes nothing |
| Strings.NoLowerIsUpper | angular-banking-frontend/src/app/shared/account-type.pipe.ts:11 | a string without lower-case letters is its own upper-case form |
| Strings.Take | angular-banking-frontend/src/app/home/home.component.ts:51 | `slice(0, n)`: a prefix of length min(n, length) |
| Seqs.Filter | angular-banking-frontend/src/app/chatbot/chatbot.component.ts:41 | no longer than the input; keeps exactly the elements satisfying the predicate |
| Seqs.FilterCounts | angular-banking-frontend/src/app/customer-accounts/customer-accounts.component.ts:37 | each element that passes is kept exactly as often as it occurs, every other one never |
| Seqs.FilterIsSubsequence | angular-banking-frontend/src/app/customer-accounts/customer-accounts.component.ts:37 | a filter result is a subsequence of its input (order preserved) |
| Seqs.SubsequenceLength | angular-banking-frontend/src/app/customer-accounts/customer-accounts.component.ts:37 | a subsequence is no longer than the sequence |
| Seqs.FilterKeepsAt | angular-banking-frontend/src/app/chatbot/chatbot.component.ts:41 | a kept element sits in the result after exactly the kept elements before it |
| AccountTypePipe.Transform | angular-banking-frontend/src/app/shared/account-type.pipe.ts:7-16 | a label is "Saving", "Current", "Unknown" or the tag as given; a normalised tag is "SAVING", "CURRENT", "UNKNOWN" or the tag upper-cased |
| AccountTypePipe.NormIsUpper | angular-banking-frontend/src/app/shared/account-type.pipe.ts:7-16 | in norm mode the result is already upper case |
| AccountTypePipe.MissingIsUnknown | angular-banking-frontend/src/app/shared/account-type.pipe.ts:7-10 | a missing tag gives "Unknown" as label, "UNKNOWN" normalised; norm is the default |
| AccountTypePipe.SavingContainsSav | angular-banking-frontend/src/app/shared/account-type.pipe.ts:13 | the "SAVING" test is subsumed by the "SAV" test |
| AccountTypePipe.SavWins | angular-banking-frontend/src/app/shared/account-type.pipe.ts:13 | any tag whose upper case contains "SAV" gives Saving/SAVING, whatever else it contains |
| AccountTypePipe.CurrentWithoutSav | angular-banking-frontend/src/app/shared/account-type.pipe.ts:13-14 | without "SAV" but with "CURRENT" the result is Current/CURRENT |
| AccountTypePipe.OtherTagsPassThrough | angular-banking-frontend/src/app/shared/account-type.pipe.ts:15 | any other tag is returned unchanged as label and upper-cased normalised |
| AccountTypePipe.CaseInsensitive | angular-banking-frontend/src/app/shared/account-type.pipe.ts:11 | tags equal up to case are normalised alike, and classified alike as labels |
| AccountTypePipe.FixedTags | angular-banking-frontend/src/app/shared/account-type.pipe.ts:13-15 | which tests the three canonical names pass |
| AccountTypePipe.NormIdempotent | angular-banking-frontend/src/app/shared/account-type.pipe.ts:8-15 | normalising a normalised tag changes nothing |
| Chat.StoredThreads | angular-banking-frontend/src/app/services/chat.service.ts:32-35 | no stored list reads as no threads |
| Chat.WithThreads | angular-banking-frontend/src/app/services/chat.service.ts:37-39 | saving overwrites the thread key and touches no other key |
| Chat.SaveThenList | angular-banking-frontend/src/app/services/chat.service.ts:32-39 | listing after saving gives back exactly the saved threads |
| Chat.ChatService.constructor | angular-banking-frontend/src/app/services/chat.service.ts:26 | the service reads and writes the given storage |
| Chat.NewThread | angular-banking-frontend/src/app/services/chat.service.ts:41-50 | id "t_" followed by the random part; both time stamps `now` |
| Chat.ThreadTitle | angular-banking-frontend/src/app/services/chat.service.ts:44 | the first 40 characters of the untrimmed text, or "New chat" when it is missing or empty |
| Chat.FirstMessages | angular-banking-frontend/src/app/services/chat.service.ts:45-48 | no message exactly when the text is missing or blank, else one user message with the trimmed text, stamped `now` |
| Chat.ChatService.ListThreads | angular-banking-frontend/src/app/services/chat.service.ts:32-35 | returns the stored threads |
| Chat.ChatService.SaveThreads | angular-banking-frontend/src/app/services/chat.service.ts:37-39 | the new storage is the old one with the thread key overwritten |
| Chatbot.WithoutId | angular-banking-frontend/src/app/chatbot/chatbot.component.ts:41 | a subsequence holding exactly the threads with another id |
| Chatbot.IndexAfterRemoval | angular-banking-frontend/src/app/chatbot/chatbot.component.ts:41-42 | where a kept thread sits after the removal |
| Chatbot.WithMessage | angular-banking-frontend/src/app/chatbot/chatbot.component.ts:50-51 | one message appended, `updatedAt` set to its time, nothing else changed |
| Chatbot.AnswerText | angular-banking-frontend/src/app/chatbot/chatbot.component.ts:72 | the answer, or "" when the reply has none |
| Chatbot.ChatbotComponent.constructor | angular-banking-frontend/src/app/chatbot/chatbot.component.ts:10-16 | no threads, none active, empty input, not loading, nothing sent |
| Chatbot.ChatbotComponent.NgOnInit | angular-banking-frontend/src/app/chatbot/chatbot.component.ts:18-21 | threads loaded from storage; the first one active, or none for an empty list |
| Chatbot.ChatbotComponent.SelectThread | angular-banking-frontend/src/app/chatbot/chatbot.component.ts:23-26 | the selected thread becomes active; nothing else changes |
| Chatbot.ChatbotComponent.FetchAnswer | angular-banking-frontend/src/app/chatbot/chatbot.component.ts:65-69 | with an active thread: loading set and the prompt sent; without one nothing happens |
| Chatbot.ChatbotComponent.NewThread | angular-banking-frontend/src/app/chatbot/chatbot.component.ts:28-38 | exactly one new thread in front of the old ones, active, saved; a non-blank input is cleared and sent, a blank one left as it was |
| Chatbot.ChatbotComponent.PushThread | angular-banking-frontend/src/app/chatbot/chatbot.component.ts:31-33 | the thread in front of the old ones, active, saved; nothing else changes |
| Chatbot.ChatbotComponent.SendFirst | angular-banking-frontend/src/app/chatbot/chatbot.component.ts:34-37 | a non-empty first message clears the input and is sent; an empty one changes nothing |
| Chatbot.ChatbotComponent.DeleteThread | angular-banking-frontend/src/app/chatbot/chatbot.component.ts:40-44 | exactly the threads with that id removed, order kept, saved; a removed active thread gives way to the first remaining one or none, otherwise the same thread stays active |
| Chatbot.ChatbotComponent.Send | angular-banking-frontend/src/app/chatbot/chatbot.component.ts:46-57 | no active thread: as NewThread; blank input: nothing changes; otherwise one user message with the trimmed text on the active thread only, input cleared, saved, sent |
| Chatbot.ChatbotComponent.AppendAssistant | angular-banking-frontend/src/app/chatbot/chatbot.component.ts:73-75 | one assistant message on the thread active now, saved |
| Chatbot.ChatbotComponent.OnAnswer | angular-banking-frontend/src/app/chatbot/chatbot.component.ts:70-77 | the assistant message carries the answer or "" |
| Chatbot.ChatbotComponent.OnAnswerError | angular-banking-frontend/src/app/chatbot/chatbot.component.ts:78-86 | the assistant message is the fixed error text, and `loading` stays as it was |
| Chatbot.ChatbotComponent.OnAnswerComplete | angular-banking-frontend/src/app/chatbot/chatbot.component.ts:87 | the only handler that clears `loading` |
| AccountModel.OperationsOf | angular-banking-frontend/src/app/account-detail/account-detail.component.ts:81-84 | missing operations read as none |
| AccountModel.TotalPagesOf | angular-banking-frontend/src/app/account-detail/account-detail.component.ts:85 | a missing page count reads as 0 |
| AccountModel.BalanceOf | angular-banking-frontend/src/app/home/home.component.ts:68 | a missing balance reads as 0 |
| AccountModel.Stringify | angular-banking-frontend/src/app/home/home.component.ts:132 | `String(x)` of a text field: "undefined" when absent, "null" when null, otherwise the text |
| AccountModel.TypeText | angular-banking-frontend/src/app/home/home.component.ts:132 | `String(o.type)`: "undefined" for a missing type, "null" for a null one, otherwise the type |
| AccountDetail.FormValid | angular-banking-frontend/src/app/account-detail/account-detail.component.ts:39-44 | a missing or empty type, a missing amount or an amount below the minimum make the form invalid; otherwise it is valid |
| AccountDetail.OperationRequest | angular-banking-frontend/src/app/account-detail/account-detail.component.ts:102-109 | DEBIT, CREDIT and TRANSFER each select their own call with the form's amount and description, transfer also the destination; any other type selects none |
| AccountDetail.OperationErrorText | angular-banking-frontend/src/app/account-detail/account-detail.component.ts:123 | the error's message, or "Operation failed" when it is missing or empty |
| AccountDetail.AccountDetailComponent.constructor | angular-banking-frontend/src/app/account-detail/account-detail.component.ts:14-34 | no account, details or message; not loading; empty list, next page 0, no more pages; the initial form; nothing requested |
| AccountDetail.AccountDetailComponent.NgOnInit | angular-banking-frontend/src/app/account-detail/account-detail.component.ts:37-48 | the route id is taken, the form built, the account and page 0 of size 200 in replace mode requested; every other field unchanged |
| AccountDetail.AccountDetailComponent.LoadAccountMeta | angular-banking-frontend/src/app/account-detail/account-detail.component.ts:50-51 | requests the account; no other field changes |
| AccountDetail.AccountDetailComponent.OnAccountMeta | angular-banking-frontend/src/app/account-detail/account-detail.component.ts:52 | the account is stored |
| AccountDetail.AccountDetailComponent.OnAccountMetaError | angular-banking-frontend/src/app/account-detail/account-detail.component.ts:53 | the error's message is shown |
| AccountDetail.AccountDetailComponent.LoadOperationsScroll | angular-banking-frontend/src/app/account-detail/account-detail.component.ts:72-77 | sets loading and `nextPageToLoad = page + 1`; the request carries page, size and the append flag; every other field unchanged |
| AccountDetail.AccountDetailComponent.OnOpsPage | angular-banking-frontend/src/app/account-detail/account-detail.component.ts:78-87 | for a request made in append mode: old list then the page's operations; otherwise replaced; `hasMoreOps` iff total pages exceed `nextPageToLoad`; both loading flags cleared; every other field unchanged |
| AccountDetail.AccountDetailComponent.OnOpsPageError | angular-banking-frontend/src/app/account-detail/account-detail.component.ts:76-88 | the message recorded, both loading flags cleared, the list kept |
| AccountDetail.AccountDetailComponent.LoadMoreOps | angular-banking-frontend/src/app/account-detail/account-detail.component.ts:92-96 | nothing while a load is in flight; otherwise `loadingMore` set and page `nextPageToLoad` of size 200 requested in append mode; every other field unchanged |
| AccountDetail.AccountDetailComponent.HandleOperation | angular-banking-frontend/src/app/account-detail/account-detail.component.ts:98-110 | an invalid form issues nothing; a valid one issues exactly the call its type selects |
| AccountDetail.AccountDetailComponent.OnOpSuccess | angular-banking-frontend/src/app/account-detail/account-detail.component.ts:112-119 | not submitting, form reset, confirmation shown, account and page 0 reloaded in replace mode; the list kept until the reply |
| AccountDetail.AccountDetailComponent.OnSavedMessageTimeout | angular-banking-frontend/src/app/account-detail/account-detail.component.ts:116 | the confirmation is hidden |
| AccountDetail.AccountDetailComponent.OnOpError | angular-banking-frontend/src/app/account-detail/account-detail.component.ts:120-124 | not submitting; the error's message or "Operation failed" |
| Home.CountBy | angular-banking-frontend/src/app/home/home.component.ts:131-132 | each key's entry is its initial value plus its number of occurrences; exactly the initial and seen keys |
| Home.CountsStep | angular-banking-frontend/src/app/home/home.component.ts:132 | one counting step adds exactly one occurrence of its key |
| Home.CountsSum | angular-banking-frontend/src/app/home/home.component.ts:131-132 | counts of a key list sum to the initial sum plus the number of keys |
| Home.InitialOpCountsZero | angular-banking-frontend/src/app/home/home.component.ts:131 | every initial count is 0 |
| Home.InitialOpCountsSum | angular-banking-frontend/src/app/home/home.component.ts:131 | the initial counts sum to 0 |
| Home.OpTypeKeys | angular-banking-frontend/src/app/home/home.component.ts:132 | one key per operation, in order |
| Home.AccountTypeKey | angular-banking-frontend/src/app/home/home.component.ts:259 | the type, or "UNKNOWN" when it is missing, null or empty |
| Home.AccountTypeKeys | angular-banking-frontend/src/app/home/home.component.ts:258-259 | one key per account, in order |
| Home.AccountTypeCounts | angular-banking-frontend/src/app/home/home.component.ts:257-264 | one entry per type present, each the number of accounts of that type; they sum to the number of accounts |
| Home.SumBalances | angular-banking-frontend/src/app/home/home.component.ts:68 | with no negative balance the total is not negative |
| Home.SumBalancesConcat | angular-banking-frontend/src/app/home/home.component.ts:68 | the total balance adds up over a split of the list |
| Home.SumBalancesBoundsEach | angular-banking-frontend/src/app/home/home.component.ts:68 | with no negative balance the total is at least each balance |
| Home.SortedCons | angular-banking-frontend/src/app/home/home.component.ts:213 | a sorted list stays sorted with an element in front that is at least its head |
| Home.InsertByBalance | angular-banking-frontend/src/app/home/home.component.ts:213 | insertion keeps the order by balance and adds exactly one element |
| Home.SortByBalanceDesc | angular-banking-frontend/src/app/home/home.component.ts:213 | a permutation of the accounts, in non-increasing balance order |
| Home.TopAccounts | angular-banking-frontend/src/app/home/home.component.ts:213 | at most 8 accounts, drawn from all accounts, in non-increasing balance order |
| Home.TopSplit | angular-banking-frontend/src/app/home/home.component.ts:213 | the sorted list is the top accounts followed by exactly the accounts left out |
| Home.TopAccountsAreLargest | angular-banking-frontend/src/app/home/home.component.ts:213 | no account left out has a larger balance than one shown |
| Home.IdOf | angular-banking-frontend/src/app/home/home.component.ts:73 | `id` or else `accountId`, missing exactly when neither is a non-empty string |
| Home.TopAccountLabel | angular-banking-frontend/src/app/home/home.component.ts:214 | the type as `String` prints it, a space, then the id or "N/A" |
| Home.TopAccountsChart | angular-banking-frontend/src/app/home/home.component.ts:213-215 | labels and data equally long, at most 8, the data the top balances in non-increasing order |
| Home.OperationsRequestFor | angular-banking-frontend/src/app/home/home.component.ts:71-76 | one request for page 0 of size 500 of the first account exactly when there is a first account with an id; none otherwise |
| Home.HomeComponent.constructor | angular-banking-frontend/src/app/home/home.component.ts:17-40 | empty lists, flags cleared, totals 0, the three operation counts 0, nothing requested |
| Home.HomeComponent.NgOnInit | angular-banking-frontend/src/app/home/home.component.ts:42-45 | both loading flags set, customers then accounts requested; every other field unchanged |
| Home.HomeComponent.LoadCustomers | angular-banking-frontend/src/app/home/home.component.ts:47-49 | loading set, customers requested; every other field unchanged |
| Home.HomeComponent.OnCustomers | angular-banking-frontend/src/app/home/home.component.ts:50-54 | the first 3 customers and the full count; null data counts as none; loading cleared; every other field unchanged |
| Home.HomeComponent.OnCustomersError | angular-banking-frontend/src/app/home/home.component.ts:55 | loading cleared; every other field unchanged |
| Home.HomeComponent.LoadAccounts | angular-banking-frontend/src/app/home/home.component.ts:59-61 | loading set, accounts requested; every other field unchanged |
| Home.HomeComponent.OnAccounts | angular-banking-frontend/src/app/home/home.component.ts:62-92 | the first 3 accounts, all of them, their count and total balance; loading cleared; the first account's operations requested exactly when it has an id; every other field unchanged |
| Home.HomeComponent.StoreAccounts | angular-banking-frontend/src/app/home/home.component.ts:64-91 | the accounts reply's assignments; every other field unchanged |
| Home.HomeComponent.OnAccountsError | angular-banking-frontend/src/app/home/home.component.ts:93-96 | loading cleared; every other field unchanged |
| Home.HomeComponent.PopulateChartData | angular-banking-frontend/src/app/home/home.component.ts:130-135 | DEBIT, CREDIT and TRANSFER always present; each count the number of operations of that type; counts sum to the number of operations, as does `recentOpsCount`; every other field unchanged |
| Home.HomeComponent.OnOperations | angular-banking-frontend/src/app/home/home.component.ts:77-81 | the loaded operations, counted as above; every other field unchanged |
| Home.HomeComponent.OnOperationsError | angular-banking-frontend/src/app/home/home.component.ts:82-86 | no operations, every count 0; every other field unchanged |
| Home.HomeComponent.ToggleGraphs | angular-banking-frontend/src/app/home/home.component.ts:121-128 | the graphs' visibility flips; every other field unchanged |
| CustomerAccounts.OwnedBy | angular-banking-frontend/src/app/customer-accounts/customer-accounts.component.ts:37 | an account without a customer summary is never owned; otherwise owned exactly when the summary's id is the customer's |
| CustomerAccounts.AccountsOf | angular-banking-frontend/src/app/customer-accounts/customer-accounts.component.ts:37 | a subsequence of the data holding exactly the accounts whose customer has that id, each as often as in the data; null data gives none |
| CustomerAccounts.NoCustomerNeverListed | angular-banking-frontend/src/app/customer-accounts/customer-accounts.component.ts:37 | an account without a customer is never listed |
| CustomerAccounts.CustomerAccountsComponent.constructor | angular-banking-frontend/src/app/customer-accounts/customer-accounts.component.ts:18-21 | the customer is the one the navigation state supplied, if any |
| CustomerAccounts.CustomerAccountsComponent.NgOnInit | angular-banking-frontend/src/app/customer-accounts/customer-accounts.component.ts:23-42 | the customer is requested only when the navigation state gave none; the accounts are always requested; loading set |
| CustomerAccounts.CustomerAccountsComponent.OnCustomer | angular-banking-frontend/src/app/customer-accounts/customer-accounts.component.ts:28 | the fetched customer is stored |
| CustomerAccounts.CustomerAccountsComponent.OnAccounts | angular-banking-frontend/src/app/customer-accounts/customer-accounts.component.ts:36-39 | the filtered accounts; loading cleared |
| CustomerAccounts.CustomerAccountsComponent.OnAccountsError | angular-banking-frontend/src/app/customer-accounts/customer-accounts.component.ts:40 | loading cleared, accounts kept |
| Auth.GetItem | angular-banking-frontend/src/app/services/auth.service.ts:115-121 | the stored value under a key, if any |
| Auth.Truthy | angular-banking-frontend/src/app/services/auth.service.ts:37 | null and the empty string are falsy, any other stored value truthy |
| Auth.StoredUser | angular-banking-frontend/src/app/services/auth.service.ts:123-126 | the user stored under the user key, if any |
| Auth.LoggedIn | angular-banking-frontend/src/app/services/auth.service.ts:128-130 | exactly when a non-empty access token is stored |
| Auth.RestoresSession | angular-banking-frontend/src/app/services/auth.service.ts:34-41 | exactly when the storage is logged in and holds a user under the user key |
| Auth.WithAuthResponse | angular-banking-frontend/src/app/services/auth.service.ts:101-104 | both tokens and the user stored under their keys, every other key unchanged |
| Auth.Cleared | angular-banking-frontend/src/app/services/auth.service.ts:109-113 | exactly the three keys removed, every other entry unchanged |
| Auth.AuthResponseRestores | angular-banking-frontend/src/app/services/auth.service.ts:34-41 | after an authentication response the stored user is its user; the stored state is logged in, and restores the session on the next start, exactly when the access token is non-empty |
| Auth.ClearedIsLoggedOut | angular-banking-frontend/src/app/services/auth.service.ts:109-130 | cleared storage is logged out, holds no user and restores no session |
| Auth.HasRole | angular-banking-frontend/src/app/services/auth.service.ts:132-135 | false without a user, otherwise role membership |
| Auth.HandleError | angular-banking-frontend/src/app/services/auth.service.ts:137-145 | the body's message, else the error's message, else "An error occurred"; never empty |
| Auth.AuthService.GetStoredUser | angular-banking-frontend/src/app/services/auth.service.ts:123-126 | the user kept under the user key of the service's storage, if any |
| Auth.AuthService.IsLoggedIn | angular-banking-frontend/src/app/services/auth.service.ts:128-130 | exactly when the service's storage holds a non-empty access token |
| Auth.AuthService.UserHasRole | angular-banking-frontend/src/app/services/auth.service.ts:132-135 | exactly when there is a current user and the role is among its roles |
| Auth.AuthService.constructor | angular-banking-frontend/src/app/services/auth.service.ts:30-41 | authenticated exactly when a token and a user are stored, with that user current |
| Auth.AuthService.CheckAuthStatus | angular-banking-frontend/src/app/services/auth.service.ts:34-41 | restores user and flag only when both a token and a user are stored |
| Auth.AuthService.HandleAuthResponse | angular-banking-frontend/src/app/services/auth.service.ts:101-107 | storage as `WithAuthResponse`, the user current, authenticated |
| Auth.AuthService.ClearStorage | angular-banking-frontend/src/app/services/auth.service.ts:109-113 | storage as `Cleared`, nothing else changes |
| Auth.AuthService.Register | angular-banking-frontend/src/app/services/auth.service.ts:43-48 | the registration call is issued |
| Auth.AuthService.Login | angular-banking-frontend/src/app/services/auth.service.ts:50-55 | the login call is issued |
| Auth.AuthService.OnAuthSuccess | angular-banking-frontend/src/app/services/auth.service.ts:45 | a successful register, login or refresh is handled as `HandleAuthResponse` |
| Auth.AuthService.Logout | angular-banking-frontend/src/app/services/auth.service.ts:57-58 | the logout call is issued |
| Auth.AuthService.OnLogoutComplete | angular-banking-frontend/src/app/services/auth.service.ts:59-64 | storage cleared, no user, not authenticated, login page |
| Auth.AuthService.OnLogoutError | angular-banking-frontend/src/app/services/auth.service.ts:65-70 | the same end state as on completion |
| Auth.AuthService.RefreshToken | angular-banking-frontend/src/app/services/auth.service.ts:74-76 | the stored refresh token is sent |
| Auth.AuthService.OnRefreshError | angular-banking-frontend/src/app/services/auth.service.ts:78-81 | a failed refresh issues the logout call |
| Auth.AuthService.ChangePassword | angular-banking-frontend/src/app/services/auth.service.ts:85-89 | the password-change call is issued |
| Auth.AuthService.GetCurrentUser | angular-banking-frontend/src/app/services/auth.service.ts:91-92 | the current-user call is issued |
| Auth.AuthService.OnCurrentUser | angular-banking-frontend/src/app/services/auth.service.ts:93-96 | the user becomes current and is stored under the user key |
| Profile.Required | angular-banking-frontend/src/app/profile/profile.component.ts:33-35 | null fails; a present value passes exactly when it is non-empty |
| Profile.MinLength | angular-banking-frontend/src/app/profile/profile.component.ts:34 | null and empty pass; any other value passes exactly when it is long enough |
| Profile.PasswordMatchValidator | angular-banking-frontend/src/app/profile/profile.component.ts:44-48 | no error exactly when the two passwords are equal, otherwise `{mismatch: true}` |
| Profile.FormValid | angular-banking-frontend/src/app/profile/profile.component.ts:32-37 | valid exactly when the current password is non-empty and the new one has at least 6 characters and equals its confirmation |
| Profile.FreshFormsInvalid | angular-banking-frontend/src/app/profile/profile.component.ts:31-37 | neither the new nor a reset form can be submitted |
| Profile.ChangeErrorText | angular-banking-frontend/src/app/profile/profile.component.ts:78 | the error's message, or "Failed to change password" when it is empty |
| Profile.FallbackNeverShown | angular-banking-frontend/src/app/profile/profile.component.ts:78 | errors pass through `handleError` first, so the fallback text is never the one chosen |
| Profile.ProfileComponent.constructor | angular-banking-frontend/src/app/profile/profile.component.ts:12-24 | no user, the initial form, not loading, no messages, every password hidden |
| Profile.ProfileComponent.NgOnInit | angular-banking-frontend/src/app/profile/profile.component.ts:26-38 | the current user taken, the empty form built |
| Profile.ProfileComponent.OnUserChanged | angular-banking-frontend/src/app/profile/profile.component.ts:27-29 | a later user emission is taken |
| Profile.ProfileComponent.ToggleCurrentPassword | angular-banking-frontend/src/app/profile/profile.component.ts:50-52 | flips only its own flag |
| Profile.ProfileComponent.ToggleNewPassword | angular-banking-frontend/src/app/profile/profile.component.ts:54-56 | flips only its own flag |
| Profile.ProfileComponent.ToggleConfirmPassword | angular-banking-frontend/src/app/profile/profile.component.ts:58-60 | flips only its own flag |
| Profile.ProfileComponent.OnChangePassword | angular-banking-frontend/src/app/profile/profile.component.ts:62-71 | an invalid form sends nothing and changes nothing; a valid one sets loading, clears both messages and sends the form |
| Profile.ProfileComponent.OnChangeSuccess | angular-banking-frontend/src/app/profile/profile.component.ts:72-76 | the server's message shown, form reset, loading cleared |
| Profile.ProfileComponent.OnChangeError | angular-banking-frontend/src/app/profile/profile.component.ts:77-80 | the error's message or the fallback shown, loading cleared |
| AuthDtos.RegisterViolations | spring-banking-backend/src/main/java/ma/mundia/springbankingbackend/dtos/AuthDtos.java:19-34 | no violation exactly when the registration is valid; each message present exactly when its constraint fails |
| AuthDtos.LoginViolations | spring-banking-backend/src/main/java/ma/mundia/springbankingbackend/dtos/AuthDtos.java:40-46 | no violation exactly when both fields are non-blank |
| AuthDtos.ChangePasswordViolations | spring-banking-backend/src/main/java/ma/mundia/springbankingbackend/dtos/AuthDtos.java:77-87 | no violation exactly when the three fields are non-blank and the new password is long enough |
| AuthDtos.RefreshTokenViolations | spring-banking-backend/src/main/java/ma/mundia/springbankingbackend/dtos/AuthDtos.java:93-96 | no violation exactly when the token is non-blank |
| AuthDtos.RegisterValidMeans | spring-banking-backend/src/main/java/ma/mundia/springbankingbackend/dtos/AuthDtos.java:19-34 | username 3 to 50 characters and non-blank; email non-blank and well formed; password non-blank and at least 6; names unconstrained |
| AuthDtos.ChangePasswordValidMeans | spring-banking-backend/src/main/java/ma/mundia/springbankingbackend/dtos/AuthDtos.java:77-87 | three non-blank passwords, the new one at least 6; no equality with the confirmation is demanded |
| AuthDtos.UsernameMessages | spring-banking-backend/src/main/java/ma/mundia/springbankingbackend/dtos/AuthDtos.java:20-22 | for every request: the required message exactly when the name is null or only characters up to U+0020; the size message exactly when a present name is shorter than 3 or longer than 50 |
| AuthDtos.BlankTokenRefused | spring-banking-backend/src/main/java/ma/mundia/springbankingbackend/dtos/AuthDtos.java:94-95 | a token made only of white space is refused |
| Entities.FindByUsername | spring-banking-backend/src/main/java/ma/mundia/springbankingbackend/services/UserServiceImpl.java:92-93 | the user stored under a name, if any |
| Entities.EmailTaken | spring-banking-backend/src/main/java/ma/mundia/springbankingbackend/services/UserServiceImpl.java:50 | taken exactly when some stored user has that email |
| Entities.FindByRoleName | spring-banking-backend/src/main/java/ma/mundia/springbankingbackend/services/UserServiceImpl.java:55 | the role stored under a name, if any |
| Entities.RoleNames | spring-banking-backend/src/main/java/ma/mundia/springbankingbackend/services/UserServiceImpl.java:173-175 | one name per role, in role order |
| UserDetailsService.DetailsOf | spring-banking-backend/src/main/java/ma/mundia/springbankingbackend/security/UserDetailsServiceImpl.java:29-37 | username, password and enabled flag copied; the other three flags set; one authority per role, in order, carrying the role name |
| UserDetailsService.LoadUserByUsername | spring-banking-backend/src/main/java/ma/mundia/springbankingbackend/security/UserDetailsServiceImpl.java:24-39 | fails with "User not found: " + name exactly when no user has that name; otherwise the record of that user |
| UserService.UserInfoOf | spring-banking-backend/src/main/java/ma/mundia/springbankingbackend/services/UserServiceImpl.java:166-177 | public fields copied; role names in role order |
| UserService.Consistent | spring-banking-backend/src/main/java/ma/mundia/springbankingbackend/services/UserServiceImpl.java:47-52 | in a consistent registry no two users share an email |
| UserService.EnsureUserRole | spring-banking-backend/src/main/java/ma/mundia/springbankingbackend/services/UserServiceImpl.java:55-56 | the default role is stored under its name afterwards; an existing one is reused and nothing changes; a missing one is created with the next role id and no other role changes |
| UserService.Registered | spring-banking-backend/src/main/java/ma/mundia/springbankingbackend/services/UserServiceImpl.java:47-52 | a taken username fails first, then a taken email; success exactly when both are free |
| UserService.RegisterAddsOneUser | spring-banking-backend/src/main/java/ma/mundia/springbankingbackend/services/UserServiceImpl.java:55-68 | exactly one user added, enabled, with the encoded password, a fresh id and exactly the default role; every other user unchanged |
| UserService.RegisterRoleOnce | spring-banking-backend/src/main/java/ma/mundia/springbankingbackend/services/UserServiceImpl.java:55-56 | the default role exists afterwards and is created only when it was missing |
| UserService.RegisterKeepsConsistent | spring-banking-backend/src/main/java/ma/mundia/springbankingbackend/services/UserServiceImpl.java:46-68 | registration keeps usernames, emails and ids unique |
| UserService.PasswordChangedIn | spring-banking-backend/src/main/java/ma/mundia/springbankingbackend/services/UserServiceImpl.java:133-142 | user not found, then wrong current password, then confirmation mismatch; success exactly when none applies |
| UserService.ChangePasswordOnlyTarget | spring-banking-backend/src/main/java/ma/mundia/springbankingbackend/services/UserServiceImpl.java:144-145 | only that user's password changes, to the encoded new one |
| UserService.ChangePasswordKeepsConsistent | spring-banking-backend/src/main/java/ma/mundia/springbankingbackend/services/UserServiceImpl.java:132-151 | a password change keeps the registry consistent |
| UserService.ResponseFor | spring-banking-backend/src/main/java/ma/mundia/springbankingbackend/services/UserServiceImpl.java:74-80 | token type "Bearer", the given refresh token, the generated access token and lifetime, the user's public fields |
| UserService.UserServiceImpl.constructor | spring-banking-backend/src/main/java/ma/mundia/springbankingbackend/services/UserServiceImpl.java:31-43 | the service starts on a consistent registry |
| UserService.UserServiceImpl.Register | spring-banking-backend/src/main/java/ma/mundia/springbankingbackend/services/UserServiceImpl.java:46-81 | a failure changes nothing and returns its message; a success leaves the registry as `Registered` and answers with tokens for the new user; consistency kept |
| UserService.UserServiceImpl.Login | spring-banking-backend/src/main/java/ma/mundia/springbankingbackend/services/UserServiceImpl.java:84-106 | rejected credentials fail, an unknown user fails, otherwise tokens for that user; nothing stored |
| UserService.UserServiceImpl.RefreshToken | spring-banking-backend/src/main/java/ma/mundia/springbankingbackend/services/UserServiceImpl.java:109-129 | fails exactly when the token cannot be parsed, names no user or is invalid for that user; on success the same refresh token comes back with a new access token |
| UserService.UserServiceImpl.ChangePassword | spring-banking-backend/src/main/java/ma/mundia/springbankingbackend/services/UserServiceImpl.java:132-151 | a failure changes nothing; a success leaves the registry as `PasswordChangedIn` and returns the success message |
| UserService.UserServiceImpl.GetCurrentUser | spring-banking-backend/src/main/java/ma/mundia/springbankingbackend/services/UserServiceImpl.java:154-158 | the user's public fields, or "User not found" |
| UserService.UserServiceImpl.FindUser | spring-banking-backend/src/main/java/ma/mundia/springbankingbackend/services/UserServiceImpl.java:161-164 | the stored user, or "User not found: " + name |

## Left out

- The ledger engine is not part of this model. The front end only calls it, and
  its implementation is not among the modelled files. It covers credit, debit and
  transfer arithmetic, balance checks and paged history.
- `loadOperations` (account page): kept in the source for compatibility and never
  called.
- Chart rendering, month grouping by date, `setTimeout` delays, scrolling, DOM
  focus and console logging: presentation only.
- The front end's navigation and the back end's controller that maps exceptions
  to HTTP statuses: glue. The auth service keeps its navigations as a log.
- Network, clock and randomness: HTTP calls are request logs with handler methods.
  `Date.now()` and `Math.random()` become parameters.
- AccountTypePipe.Transform: takes a string or nothing, so the `String(x)` of
  numbers or objects is not modelled. Upper-casing covers ASCII letters only,
  because there are no Unicode case tables.
- Chatbot.ChatbotComponent.AppendAssistant: in the source a reply that arrives
  when no thread is active throws, because it dereferences `active!`. The model
  leaves the state unchanged instead.
- Chatbot: thread identity is modelled as the active thread's index in the list.
  Aliasing between two distinct thread objects with the same content is not
  modelled.
- Auth.StoredUser, Chat.StoredThreads: malformed JSON in storage, on which the
  source throws, is not modelled. A plain string under the user key reads as no
  user.
- Home.CountBy: JavaScript object keys inherited from the prototype, such as
  `constructor`, are not modelled. Counts start from absent, i.e. 0.
- Chat.ThreadTitle: `slice(0, 40)` counts UTF-16 code units; the model counts
  characters, so a title with characters outside the Basic Multilingual Plane is
  cut at a different place.
- Profile.MinLength, Profile.FormValid: `Validators.minLength(6)` measures
  UTF-16 code units; the model counts characters.
- Strings.ToUpper: upper-cases ASCII letters only. `toUpperCase` also maps other
  letters and can lengthen a string ("ß" becomes "SS"); that is not modelled.
- Home.SortByBalanceDesc: the order it gives to accounts with equal balances is
  not stated. JavaScript's sort is stable; stability is not proved here.
- Money: balances are floating point in the source. Here they are integers, and
  `Validators.min(0.01)` is read as at least 1.
- UserDetailsService.LoadUserByUsername: Spring's `User` constructor also
  rejects null fields and stores authorities as a sorted set. That library is not
  modelled; the record holds the constructor's arguments as given.
- UserService.UserServiceImpl.Login: the authentication manager is an abstract
  predicate over the user table and the credentials. Spring's provider chain is
  not modelled.
- UserService: the password encoder and the JWT service are uninterpreted
  functions. Token expiry and signatures are not modelled. A token that cannot be
  parsed fails with a fixed message standing for the library's exception.
- UserService: each request is modelled as running alone, one after another.
  Two concurrent registrations with the same username or email can both pass the
  `existsByUsername` and `existsByEmail` checks (UserServiceImpl.java:47-52)
  before either saves. That interleaving is not modelled, and neither are the
  duplicate rows or the failed save it can cause. `Consistent` and
  `RegisterKeepsConsistent` hold for serial execution only.
- UserService: database identifiers are counters in the registry. Failed saves
  and the transaction rollback they would cause are not modelled, because saves
  never fail here.
- The `AppUser` entity and `AppUserRepository` are not part of this model. Their
  fields and queries are taken from how the service uses them.
- AuthDtos: `@Email` is an abstract predicate. Java string lengths are counted
  in characters, not UTF-16 code units.
- Profile.ProfileComponent: the subscription to the current user is taken at
  `ngOnInit` and on each later emission. Unsubscription is not modelled.
