# ExpenceTrackerReact client state, modelled in Dafny

ExpenceTrackerReact is a React and Redux Toolkit front end for a personal finance API. Users sign in, keep several accounts, record one-off and recurring (auto) transactions, filter and export them, and view monthly reports. This project models the client's state layer:

- **The Redux slices.** These are the transactions, recurring rules, accounts, auth, reports and user slices.
  - Each slice is a `class` whose fields are the slice state, with one method per reducer case.
  - Each `createAsyncThunk` is a pure function from the network outcome to `Settled<T>`. The outcome is the reply body, or `None` when the request threw. `Settled<T>` is `Fulfilled(payload)` or `Rejected(reason)`.
  - A `Run*` method chains the pending case, the thunk and the case that handles the result. It states the slice after one `dispatch`.
- **The session.**
  - `localStorage` is a class over a string map.
  - The auth slice keeps its tokens in step with that map.
  - The store's start-up restore is modelled.
  - The axios client's two interceptors are modelled. The refresh decision is a pure function over its inputs:
    - whether the error carries a config;
    - the stored refresh token;
    - the refresh reply;
    - whether `setStore` has run.
- **The page helpers.** These come from the transactions, recurring-rules and accounts pages and the sidebar:
  - digit-only number parsing and description truncation;
  - row-selection toggling and the income/expense totals;
  - the form guards and the DTOs the forms send;
  - the `||` and `??` defaults of the edit dialogs;
  - the filter-form-to-query mapping;
  - the balance-input sanitiser and the default currency;
  - the path-prefix menu rules.

JavaScript semantics are written out where they matter:

- **Truthiness.** A missing or empty string is falsy (`Common.Truthy`). A number is falsy when it is 0 or NaN (`Text.JsNumber.IsTruthy`); a number with a fractional part is kept as its `toString()` text and is always truthy.
- **`Number()`.** Blank text and whole numbers with an optional minus sign are read by the model (`Text.NumberOf`). The value of any other text is a parameter.
- **`toString`.** `Text.NatToString` and `Text.IntToString`.
- **`trim`.** It uses ECMAScript's whitespace set (`Text.Trim`).
- **`replace(/\D/g, "")`.** `Text.DigitsOnly`.
- **`setItem(k, undefined)`.** It stores the text `"undefined"` (`Storage.Stringified`).
- **`URLSearchParams`.** A class over an ordered list of pairs. Its `get` returns the first pair with the key.

Where the code differs from its intended behaviour, the model follows the code:

- Creating an account does not select it.
- Deleting the selected account leaves `currentAccountId` pointing at it.
- A fulfilled fetch never clears an earlier `error`.
- The interceptor sets `_retry` but never reads it, so nothing bounds repeated refresh-and-resend.
- The interceptor never inspects the status code.
- Start-up restores the tokens only when both stored values are truthy. A stored empty string counts as missing.
- The store registers only the `auth`, `account` and `transaction` reducers.
- The accounts page's second create guard, a leading "0" in the balance's decimal form, can never fire.
- The sidebar's sign-out clears storage without dispatching `logout`.

## Model

| member | source | states |
|---|---|---|
| Common.ErrorText | src/features/transactionSlice/transactionSlice.ts:228-231 | The stored error is never empty: it is the rejection value when that is truthy, otherwise "Неизвестная ошибка". |
| Common.First | src/features/authSlice/authSlice.ts:63-64 | `xs?.[0]` is present exactly when the array is present and non-empty, and is then its first element. |
| Common.UnwrapItems | src/features/transactionSlice/transactionSlice.ts:110 | The first page's items when the reply has a first page with items, and the empty list otherwise. |
| Common.UnwrapFirst | src/features/transactionSlice/transactionSlice.ts:195 | Present exactly when the reply has a non-empty first row, and then that row's first entry. |
| Common.EditedEntry | src/features/transactionSlice/transactionSlice.ts:188-199 | The shared shape of the three edit thunks: reject with the given message exactly when the request fails, otherwise fulfil with `data?.[0]?.[0]`. |
| Text.DigitsOnly | src/page/transaction/transaction.tsx:63 | The result is all digits, no longer than the input, and holds exactly the digit characters of the input. A digit string passes through unchanged. |
| Text.NatToString | src/features/transactionSlice/transactionSlice.ts:157 | `toString()` of a whole number is a non-empty digit string. |
| Text.IntToString | src/features/transactionSlice/transactionSlice.ts:157 | `toString()` of a whole number starts with a minus sign exactly when the number is negative. The digits after it read back as the number's magnitude. |
| Text.NatToStringRoundTrip | src/features/transactionSlice/transactionSlice.ts:157 | Reading back the decimal form of a number gives the number. |
| Text.PositiveHasNoLeadingZero | src/page/home/home.tsx:55 | A positive number's decimal form does not start with "0". |
| Text.NatToStringCanonical | src/page/home/home.tsx:55 | `toString()` never writes a leading zero, except for 0 itself. |
| Text.LeadingDigitBound | src/page/home/home.tsx:220-221 | A digit string's value is at least its leading digit. |
| Text.CanonicalRoundTrip | src/page/home/home.tsx:220-221 | A digit string without a leading zero is the decimal form of its own value, so `Number` and `toString` are inverse on it. |
| Text.TrimStart | src/page/transaction/transaction.tsx:100 | The result is a suffix of the input that does not start with whitespace, and everything cut off is whitespace. |
| Text.TrimEnd | src/page/transaction/transaction.tsx:100 | The result is a prefix of the input that does not end with whitespace, and everything cut off is whitespace. |
| Text.Trim | src/page/transaction/transaction.tsx:100 | `trim()` is never longer than its input. It is empty, so `!s.trim()` holds, exactly when `s` is made only of whitespace. |
| Text.TrimLeavesNoOuterSpace | src/page/transaction/transaction.tsx:100 | What `trim()` leaves neither starts nor ends with whitespace. |
| Text.TrimWithoutSpace | src/page/transaction/transaction.tsx:100 | A string without whitespace is its own trim. |
| Text.TrimOfDigits | src/page/transaction/transaction.tsx:100 | A digit string is its own trim. |
| Text.NumberOf | src/page/transaction/transaction.tsx:88-90 | `Number` of a blank string is 0. After trimming, a digit string gives its decimal value, and "-" followed by digits gives the negated value. Any other text gives the value passed in for it. |
| Text.TrimOfSigned | src/page/transaction/transaction.tsx:88-90 | A minus sign followed by digits has no whitespace to trim. |
| Collections.IndexOfKey | src/features/transactionSlice/transactionSlice.ts:247 | `findIndex` is -1 exactly when no element has the key. Otherwise it is the first index with that key. |
| Collections.ReplaceFirstByKey | src/features/transactionSlice/transactionSlice.ts:244-249 | Length is kept. With no matching id the list is unchanged. Otherwise only the first element with the id is replaced, and every other index keeps its element. |
| Collections.WithoutKeys | src/features/transactionSlice/transactionSlice.ts:235-239 | The survivors are exactly the elements whose key is not among the deleted ids. |
| Collections.WithoutKeysKeepsOrder | src/features/transactionSlice/transactionSlice.ts:236-238 | The survivors of a delete keep their relative order. |
| Collections.WithoutNoKeys | src/features/transactionSlice/transactionSlice.ts:236-238 | Deleting an empty id list leaves the list as it was. |
| Collections.WithoutKeysAppend | src/features/autoTransactionSlice/autoTransactionSlice.ts:182-186 | The delete filter splits over concatenation: each part is filtered in place. |
| Collections.WithoutKeysIdempotent | src/features/accountSlice/accountSlice.ts:141-143 | Deleting the same ids twice gives the same list as deleting them once. |
| Query.Get | src/features/transactionSlice/transactionSlice.ts:154-161 | `get` finds nothing exactly when no pair has the key. A value it finds was appended under that key. |
| Query.GetAppend | src/features/transactionSlice/transactionSlice.ts:155 | Appending a pair changes `get` only for its key, and only when that key was absent. |
| Query.Rank | src/features/transactionSlice/transactionSlice.ts:154-161 | A key's rank is its position in the fixed key order, or past the end when it is not one of the keys. |
| Query.AmountParam | src/features/transactionSlice/transactionSlice.ts:156-159 | An amount bound is sent exactly when it is a non-zero number (0 and NaN are falsy), as its `toString()`: the decimal form of a whole number, or the text of a fraction. |
| Query.TextParam | src/features/transactionSlice/transactionSlice.ts:155 | A text bound is sent exactly when it is truthy, and as it is. |
| Query.SearchParams.constructor | src/features/transactionSlice/transactionSlice.ts:154 | `new URLSearchParams()` holds no pair, so `get` finds nothing. |
| Query.SearchParams.Append | src/features/transactionSlice/transactionSlice.ts:155 | `append` adds the pair at the end. `get` then changes only for a key that was absent. |
| Query.AppendWhen | src/features/transactionSlice/transactionSlice.ts:155-161 | A conditional append keeps the keys in the builder's fixed order, and adds its pair exactly when the condition holds. |
| Storage.LocalStorage.GetItem | src/features/authSlice/authSlice.ts:80-81 | `getItem` is null exactly when the key is absent, and otherwise is the stored text. |
| Storage.LocalStorage.SetItem | src/features/authSlice/authSlice.ts:95-96 | `setItem` overwrites one key and leaves the rest. |
| Storage.LocalStorage.RemoveItem | src/features/authSlice/authSlice.ts:102-103 | `removeItem` drops one key and leaves the rest. |
| Storage.LocalStorage.Clear | src/components/sidebar/sidebar.tsx:113 | `clear` empties storage. |
| Storage.Stringified | src/features/authSlice/authSlice.ts:127-128 | `setItem` of `undefined` stores the text "undefined". A present value is stored as it is. |
| Storage.WithTokens | src/features/authSlice/authSlice.ts:95-96 | After both writes the two token keys hold the new texts, and every other key is unchanged. |
| Storage.WithTokensIdempotent | src/features/authSlice/authSlice.ts:89-97 | Writing the same pair twice leaves storage as one write does, so `restoreTokens` is idempotent on storage. |
| Storage.WithStoredTokens | src/store/store.ts:15-19 | Writing back the values that are already stored leaves storage unchanged. |
| Transactions.GetTransactions | src/features/transactionSlice/transactionSlice.ts:101-114 | The thunk rejects with "Ошибка сети" exactly when the request fails. Otherwise it fulfils with `data[0].items`, or `[]`. |
| Transactions.FilterTransactions | src/features/transactionSlice/transactionSlice.ts:163-170 | The thunk rejects with the filter message exactly when the request fails. Otherwise it fulfils with `data?.[0]?.items ?? []` (`Common.UnwrapItems`). |
| Transactions.AddTransaction | src/features/transactionSlice/transactionSlice.ts:201-212 | The thunk rejects with "Ошибка сети" exactly when the request fails. Otherwise it fulfils with the reply body, the created transaction. |
| Transactions.EditTransaction | src/features/transactionSlice/transactionSlice.ts:188-199 | The thunk rejects with the edit message exactly when the request fails. Otherwise it fulfils with `data?.[0]?.[0]` (`Common.UnwrapFirst`), which may be missing. |
| Transactions.DeleteTransactions | src/features/transactionSlice/transactionSlice.ts:173-186 | The thunk fulfils exactly when the delete succeeds, and then with the very ids it was given. |
| Transactions.FileExtension | src/features/transactionSlice/transactionSlice.ts:93 | The extension is "xlsx" exactly for id 1, and "csv" for every other id. |
| Transactions.FilterKeyRanks | src/features/transactionSlice/transactionSlice.ts:154-161 | The filter keys rank Name, AmountFrom, AmountTo, DateFrom, DateTo. |
| Transactions.FilterQuery | src/features/transactionSlice/transactionSlice.ts:154-161 | Each of the five keys is present exactly when its value is truthy, with the value the builder appends, and in the fixed order. |
| Transactions.ExportKeyRanks | src/features/transactionSlice/transactionSlice.ts:76-79 | The export keys rank DateFrom, DateTo, DocumentExtensionId. |
| Transactions.ExportQuery | src/features/transactionSlice/transactionSlice.ts:76-79 | The date bounds are present only when non-empty. The last pair is always DocumentExtensionId with the id's `toString()`, and the keys are in order. |
| Transactions.ZeroAmountOmitted | src/features/transactionSlice/transactionSlice.ts:156-157 | An amount bound of 0 never reaches the query. |
| Transactions.TransactionSlice.constructor | src/features/transactionSlice/transactionSlice.ts:32-36 | The slice starts with no transactions, not loading and without an error. |
| Transactions.TransactionSlice.GetPending | src/features/transactionSlice/transactionSlice.ts:220-223 | Pending sets loading, clears the error, and keeps the list. |
| Transactions.TransactionSlice.GetFulfilled | src/features/transactionSlice/transactionSlice.ts:224-227 | Fulfilled replaces the list wholesale and clears loading. The error is not touched. |
| Transactions.TransactionSlice.GetRejected | src/features/transactionSlice/transactionSlice.ts:228-231 | Rejected clears loading and stores the payload or the fallback message. The list is kept. |
| Transactions.TransactionSlice.AddFulfilled | src/features/transactionSlice/transactionSlice.ts:232-234 | The new transaction is prepended (`[t] + old`), and nothing else changes. |
| Transactions.TransactionSlice.DeleteFulfilled | src/features/transactionSlice/transactionSlice.ts:235-239 | Exactly the transactions whose id is not in the payload survive, in order. The flags are untouched. |
| Transactions.TransactionSlice.FilterFulfilled | src/features/transactionSlice/transactionSlice.ts:240-243 | The filtered list replaces the old one and loading is cleared. The error is not touched. |
| Transactions.TransactionSlice.EditFulfilled | src/features/transactionSlice/transactionSlice.ts:244-249 | A missing payload changes nothing. Otherwise the first transaction with the payload's id is replaced. The length is kept. |
| Transactions.TransactionSlice.RunGetTransactions | src/features/transactionSlice/transactionSlice.ts:101-114 | After a dispatch the slice is idle. On success it holds the unwrapped list and no error. On failure it keeps the list and stores "Ошибка сети". |
| Transactions.TransactionSlice.RunFilterTransactions | src/features/transactionSlice/transactionSlice.ts:142-171 | A successful filter replaces the list. A failed one changes nothing, because only `fulfilled` has a case. |
| Transactions.TransactionSlice.RunAddTransaction | src/features/transactionSlice/transactionSlice.ts:201-212 | A successful add prepends the created transaction. A failed one changes nothing. |
| Transactions.TransactionSlice.RunDeleteTransactions | src/features/transactionSlice/transactionSlice.ts:173-186 | A successful delete removes exactly the given ids. A failed one changes nothing. |
| Transactions.TransactionSlice.RunEditTransaction | src/features/transactionSlice/transactionSlice.ts:188-199 | After a successful edit whose reply holds a transaction, that transaction replaces the first one with its id. A failed edit, or a reply without a transaction, changes nothing. |
| AutoTransactions.GetAutoTransactions | src/features/autoTransactionSlice/autoTransactionSlice.ts:55-68 | The thunk rejects with "Ошибка сети" exactly when the request fails. Otherwise it fulfils with `data[0].items`, or `[]`. |
| AutoTransactions.GetRecurringFrequency | src/features/autoTransactionSlice/autoTransactionSlice.ts:70-81 | On success the payload is `data[0]`, or `[]` when there is no first element. A failure rejects. |
| AutoTransactions.FilterAutoTransactions | src/features/autoTransactionSlice/autoTransactionSlice.ts:127-150 | The thunk rejects with the filter message exactly when the request fails. Otherwise it fulfils with the unwrapped items. |
| AutoTransactions.AddAutoTransaction | src/features/autoTransactionSlice/autoTransactionSlice.ts:83-94 | The thunk rejects exactly when the request fails. Otherwise it fulfils with the reply body, the created rule. |
| AutoTransactions.EditAutoTransaction | src/features/autoTransactionSlice/autoTransactionSlice.ts:96-107 | The thunk rejects exactly when the request fails. Otherwise it fulfils with `data?.[0]?.[0]` (`Common.UnwrapFirst`). |
| AutoTransactions.DeleteAutoTransactions | src/features/autoTransactionSlice/autoTransactionSlice.ts:109-125 | The thunk fulfils exactly when the delete succeeds, and then with the given ids. |
| AutoTransactions.FilterKeyRanks | src/features/autoTransactionSlice/autoTransactionSlice.ts:135-140 | The rule filter keys rank Name, AmountFrom, AmountTo. |
| AutoTransactions.FilterQuery | src/features/autoTransactionSlice/autoTransactionSlice.ts:135-140 | Name, AmountFrom and AmountTo are each present exactly when truthy, and in that order. |
| AutoTransactions.AutoTransactionSlice.constructor | src/features/autoTransactionSlice/autoTransactionSlice.ts:48-53 | The slice starts with no rules and no frequencies, not loading and without an error. |
| AutoTransactions.AutoTransactionSlice.GetPending | src/features/autoTransactionSlice/autoTransactionSlice.ts:158-161 | Pending sets loading and clears the error. Both lists are kept. |
| AutoTransactions.AutoTransactionSlice.GetFulfilled | src/features/autoTransactionSlice/autoTransactionSlice.ts:162-165 | Fulfilled replaces the rules and clears loading. The error is not touched. |
| AutoTransactions.AutoTransactionSlice.GetRejected | src/features/autoTransactionSlice/autoTransactionSlice.ts:166-169 | Rejected clears loading and stores the message or the fallback. The lists are kept. |
| AutoTransactions.AutoTransactionSlice.FrequencyFulfilled | src/features/autoTransactionSlice/autoTransactionSlice.ts:170-172 | Only `recurringFrequency` changes. |
| AutoTransactions.AutoTransactionSlice.AddFulfilled | src/features/autoTransactionSlice/autoTransactionSlice.ts:173-175 | The new rule is prepended, and nothing else changes. |
| AutoTransactions.AutoTransactionSlice.EditFulfilled | src/features/autoTransactionSlice/autoTransactionSlice.ts:176-181 | A missing payload or an unknown id changes nothing. Otherwise only the first matching rule is replaced. |
| AutoTransactions.AutoTransactionSlice.DeleteFulfilled | src/features/autoTransactionSlice/autoTransactionSlice.ts:182-186 | Exactly the rules whose id is not in the payload survive, in order. |
| AutoTransactions.AutoTransactionSlice.FilterFulfilled | src/features/autoTransactionSlice/autoTransactionSlice.ts:187-190 | The filtered rules replace the list and loading is cleared. |
| AutoTransactions.AutoTransactionSlice.RunGetAutoTransactions | src/features/autoTransactionSlice/autoTransactionSlice.ts:55-68 | After a dispatch the slice is idle. It holds the unwrapped rules on success, and "Ошибка сети" with the old rules on failure. |
| AutoTransactions.AutoTransactionSlice.RunGetRecurringFrequency | src/features/autoTransactionSlice/autoTransactionSlice.ts:70-81 | On success the frequency list becomes `data?.[0] ?? []`. A failed request changes nothing, and the rules and flags never change. |
| AutoTransactions.AutoTransactionSlice.RunFilterAutoTransactions | src/features/autoTransactionSlice/autoTransactionSlice.ts:127-150 | A successful filter replaces the rules. A failed one changes nothing. |
| AutoTransactions.AutoTransactionSlice.RunAddAutoTransaction | src/features/autoTransactionSlice/autoTransactionSlice.ts:83-94 | A successful add prepends the rule. A failed one changes nothing. |
| AutoTransactions.AutoTransactionSlice.RunDeleteAutoTransactions | src/features/autoTransactionSlice/autoTransactionSlice.ts:109-125 | A successful delete removes exactly the given ids. A failed one changes nothing. |
| AutoTransactions.AutoTransactionSlice.RunEditAutoTransaction | src/features/autoTransactionSlice/autoTransactionSlice.ts:96-107 | After a successful edit whose reply holds a rule, that rule replaces the first one with its id. A failed edit, or a reply without a rule, changes nothing. |
| Accounts.KeepIdentified | src/features/accountSlice/accountSlice.ts:51 | The filter keeps exactly the present accounts with a non-empty id. |
| Accounts.KeepIdentifiedAppend | src/features/accountSlice/accountSlice.ts:51 | The filter splits over concatenation, so the survivors keep their order. |
| Accounts.KeepIdentifiedNoop | src/features/accountSlice/accountSlice.ts:51 | A list of identified accounts passes the filter unchanged. |
| Accounts.FetchAccounts | src/features/accountSlice/accountSlice.ts:40-55 | Without a truthy token the thunk rejects with "Нет токена" and makes no request. A failure rejects with the load message. Otherwise the payload is `data?.[0] || []` with the entries that are null or have an empty id dropped (`Accounts.KeepIdentified`), so it holds only accounts with an id. |
| Accounts.CreateAccount | src/features/accountSlice/accountSlice.ts:57-73 | Without a truthy token the thunk rejects with "Нет токена". Otherwise it rejects exactly on failure, and fulfils with `data?.[0]?.[0]`. |
| Accounts.EditAccount | src/features/accountSlice/accountSlice.ts:75-87 | There is no token check. The thunk rejects with the edit message exactly on failure, and otherwise fulfils with `data?.[0]?.[0]`. |
| Accounts.DeleteAccount | src/features/accountSlice/accountSlice.ts:89-102 | Without a truthy token the thunk rejects with "Нет токена". It fulfils with the id exactly when there is a token and the delete succeeds. |
| Accounts.GetCurrency | src/features/accountSlice/accountSlice.ts:104-115 | The thunk rejects exactly on failure. Otherwise it fulfils with `data[0]`, or `[]`. |
| Accounts.AccountSlice.constructor | src/features/accountSlice/accountSlice.ts:33-38 | The slice starts with no accounts, nothing selected, not loading and without an error. |
| Accounts.AccountSlice.Clear | src/features/accountSlice/accountSlice.ts:121 | `clearAccount` returns to the initial state. |
| Accounts.AccountSlice.SetCurrentAccount | src/features/accountSlice/accountSlice.ts:122-124 | Any id is selected, whether or not an account has it. Nothing else changes. |
| Accounts.AccountSlice.FetchFulfilled | src/features/accountSlice/accountSlice.ts:128-132 | The list is replaced. The first account is selected only when nothing truthy was selected and the list is non-empty. Loading and error are untouched. |
| Accounts.AccountSlice.CreateFulfilled | src/features/accountSlice/accountSlice.ts:133-135 | The account is appended at the end and is not selected. |
| Accounts.AccountSlice.EditFulfilled | src/features/accountSlice/accountSlice.ts:136-140 | A missing payload or an empty id changes nothing. Otherwise only the first account with the id is replaced. |
| Accounts.AccountSlice.DeleteFulfilled | src/features/accountSlice/accountSlice.ts:141-143 | Every account with the id goes. The selection is unchanged, even when it named the deleted account. |
| Accounts.AccountSlice.RunFetchAccounts | src/features/accountSlice/accountSlice.ts:40-55 | Without a token, or on failure, nothing changes. On success the filtered list replaces the accounts, and its first account is selected only when no truthy id was selected before. |
| Accounts.AccountSlice.RunCreateAccount | src/features/accountSlice/accountSlice.ts:57-73 | A created account is appended. Without a token, on failure, or with no account in the reply, nothing changes. |
| Accounts.AccountSlice.RunEditAccount | src/features/accountSlice/accountSlice.ts:75-87 | After a successful edit whose reply holds an account with a non-empty id, that account replaces the first one with its id. Otherwise nothing changes. |
| Accounts.AccountSlice.RunDeleteAccount | src/features/accountSlice/accountSlice.ts:89-102 | With a token and a successful delete, exactly the accounts with the id go. Otherwise nothing changes. |
| Auth.FirstTokens | src/features/authSlice/authSlice.ts:27-32 | A failed request or a missing `data` rejects with the thunk's message. An empty `data` fulfils with `undefined`, and otherwise the thunk fulfils with `data[0]`. |
| Auth.RegisterUser | src/features/authSlice/authSlice.ts:22-33 | `registerUser` rejects with "Ошибка регистрации" exactly when the request or `data` is missing, and otherwise fulfils with `data[0]`. |
| Auth.LoginUser | src/features/authSlice/authSlice.ts:35-46 | `loginUser` rejects with "Ошибка авторизации" exactly when the request or `data` is missing, and otherwise fulfils with `data[0]`. |
| Auth.RefreshAuth | src/features/authSlice/authSlice.ts:48-71 | With no stored refresh token the thunk rejects with "Нет refreshToken" before any request. Otherwise it fulfils exactly when the reply has `data[0]`, and rejects with "Не удалось обновить сессию" when it does not. |
| Auth.AuthSlice.constructor | src/features/authSlice/authSlice.ts:79-83 | The initial tokens mirror the two storage keys, and no refresh is in flight. |
| Auth.AuthSlice.WriteTokens | src/features/authSlice/authSlice.ts:93-96 | Both token fields are set, and the same values are written to storage. A complete pair leaves state and storage in agreement. |
| Auth.AuthSlice.RestoreTokens | src/features/authSlice/authSlice.ts:89-97 | `restoreTokens` sets both tokens in state and storage, and leaves them in agreement for a complete pair. |
| Auth.AuthSlice.Logout | src/features/authSlice/authSlice.ts:98-104 | Both tokens are nulled, no refresh is in flight, and both keys leave storage. |
| Auth.AuthSlice.SignedIn | src/features/authSlice/authSlice.ts:108-119 | Register and login fulfilment set both tokens in state and storage. |
| Auth.AuthSlice.RefreshPending | src/features/authSlice/authSlice.ts:120-122 | Pending sets `isRefreshing` and keeps the tokens. |
| Auth.AuthSlice.RefreshFulfilled | src/features/authSlice/authSlice.ts:123-129 | The new pair goes to state and storage, and `isRefreshing` is cleared. |
| Auth.AuthSlice.RefreshRejected | src/features/authSlice/authSlice.ts:130-132 | `isRefreshing` is cleared and the tokens stay. |
| Auth.AuthSlice.RunSignIn | src/features/authSlice/authSlice.ts:108-119 | A fulfilled pair is stored. A rejection changes nothing. A fulfilled `undefined` makes the reducer throw, which also leaves state and storage unchanged. |
| Auth.AuthSlice.RunRefreshAuth | src/features/authSlice/authSlice.ts:48-71 | After a refresh, `isRefreshing` is false. Without a stored refresh token, or on a rejected refresh, the tokens and storage are unchanged. On success the reply's pair is stored. |
| Auth.MissingRefreshStoredAsText | src/features/authSlice/authSlice.ts:127-128 | A reply without a refresh token leaves the truthy text "undefined" in storage. |
| AppStore.Store.constructor | src/store/store.ts:7-13 | Only the auth, account and transaction slices are created. Auth reads its tokens from storage. |
| AppStore.RestoresAtLoad | src/store/store.ts:17 | The start-up test holds exactly when both stored tokens are present and non-empty. |
| AppStore.Load | src/store/store.ts:15-19 | `restoreTokens` is dispatched exactly when both stored tokens are truthy. Storage is unchanged either way, and the auth tokens equal the stored ones afterwards. |
| ApiClient.Authorize | src/components/hooks/apiClient.ts:13-19 | The raw token, with no scheme, becomes `Authorization` exactly when it is truthy. All other headers are kept. A falsy token leaves the config unchanged. |
| ApiClient.AuthorizeIdempotent | src/components/hooks/apiClient.ts:13-19 | Running the request interceptor twice with the same token changes nothing more. |
| ApiClient.Client.InterceptRequest | src/components/hooks/apiClient.ts:13-19 | When storage holds a non-empty access token at that moment, it becomes the `Authorization` header and every other header is kept. Otherwise the request goes out unchanged. |
| ApiClient.Client.SetStore | src/components/hooks/apiClient.ts:4-7 | After `setStore` the handler can dispatch to the given store. |
| ApiClient.NewAccess | src/components/hooks/apiClient.ts:46 | The new access token is the first entry's `accessToken`, and missing when the reply has no entry. |
| ApiClient.NewRefresh | src/components/hooks/apiClient.ts:47 | The new refresh token is the first entry's `refreshToken`, and missing when the reply has no entry. |
| ApiClient.Client.constructor | src/components/hooks/apiClient.ts:4 | The module starts with no store set, bound to the page's one storage. |
| ApiClient.Decide | src/components/hooks/apiClient.ts:21-60 | The decision is one of these, each in both directions: pass through exactly when there is no config; throw exactly when there is no refresh token; fail exactly when the refresh call fails; re-send exactly when the new access token is truthy and the store is set; otherwise resolve with `undefined`. |
| ApiClient.StatusAndRetryIgnored | src/components/hooks/apiClient.ts:23-36 | The status and `_retry` do not affect the decision. |
| ApiClient.ResendNotBounded | src/components/hooks/apiClient.ts:29 | A re-sent request that fails again, with `_retry` set, is refreshed and re-sent again. |
| ApiClient.Client.HandleResponseError | src/components/hooks/apiClient.ts:21-60 | Each branch settles as `Decide` says. Storage changes only on a re-send, which stores the new pair. The re-sent request carries the new token, and the request interceptor leaves it as it is. The auth slice's tokens change only on a re-send, and `isRefreshing` never changes. |
| Reports.Flat | src/features/reportsSlice/reportsSlice.ts:46-47 | `flat()` has the summed length of the entries, and contains every item of every entry. |
| Reports.FlatAppend | src/features/reportsSlice/reportsSlice.ts:63 | `flat()` distributes over concatenation, so the result is the inner rows in order. |
| Reports.FlatOfLeaves | src/features/reportsSlice/reportsSlice.ts:76 | A list of plain items is left as it is. |
| Reports.Flattened | src/features/reportsSlice/reportsSlice.ts:54-67 | A failed request or a missing `data` rejects with the thunk's message. Otherwise the thunk fulfils with the flattened data. |
| Reports.GetMonthlyIncomeExpenses | src/features/reportsSlice/reportsSlice.ts:54-67 | On failure the thunk rejects with its message. Otherwise it fulfils with the flattened `data` (`Reports.Flat`). |
| Reports.GetMonthlySavings | src/features/reportsSlice/reportsSlice.ts:69-80 | On failure the thunk rejects with its message. Otherwise it fulfils with the flattened `data` (`Reports.Flat`). |
| Reports.FetchReports | src/features/reportsSlice/reportsSlice.ts:34-52 | The thunk fulfils exactly when both replies carry `data`, with both flattened. Otherwise it rejects with the reports message. |
| Reports.ReportsSlice.constructor | src/features/reportsSlice/reportsSlice.ts:18-23 | The slice starts with both arrays empty, not loading and without an error. |
| Reports.ReportsSlice.Pending | src/features/reportsSlice/reportsSlice.ts:88-91 | Every pending case sets loading, clears the error, and keeps both arrays. |
| Reports.ReportsSlice.Rejected | src/features/reportsSlice/reportsSlice.ts:96-99 | Every rejected case clears loading and stores the message or the fallback. Both arrays are kept. |
| Reports.ReportsSlice.IncomeExpensesFulfilled | src/features/reportsSlice/reportsSlice.ts:92-95 | Only `monthlyReports` is replaced, and loading is cleared. |
| Reports.ReportsSlice.SavingsFulfilled | src/features/reportsSlice/reportsSlice.ts:104-107 | Only `monthlySavings` is replaced, and loading is cleared. |
| Reports.ReportsSlice.FetchFulfilled | src/features/reportsSlice/reportsSlice.ts:116-120 | Both arrays are replaced, and loading is cleared. |
| Reports.ReportsSlice.RunGetMonthlyIncomeExpenses | src/features/reportsSlice/reportsSlice.ts:54-67 | After a dispatch the slice is idle. It holds the flattened reports on success and the message on failure, and the savings are untouched. |
| Reports.ReportsSlice.RunGetMonthlySavings | src/features/reportsSlice/reportsSlice.ts:69-80 | After a dispatch the slice is idle. It holds the flattened savings on success and the message on failure, and the reports are untouched. |
| Reports.ReportsSlice.RunFetchReports | src/features/reportsSlice/reportsSlice.ts:34-52 | After a dispatch the slice is idle. It holds both arrays when both requests succeed, and otherwise the message with the old arrays. |
| User.GetUser | src/features/userSlice/userSlice.ts:34-45 | Every failure rejects with "Неизвестная ошибка". Otherwise the payload is `data[0]`, and is missing exactly when `data` is empty. |
| User.UserSlice.constructor | src/features/userSlice/userSlice.ts:28-32 | The slice starts with no user, not loading and without an error. |
| User.UserSlice.Pending | src/features/userSlice/userSlice.ts:53-56 | Pending sets loading, clears the error, and keeps the user. |
| User.UserSlice.Fulfilled | src/features/userSlice/userSlice.ts:57-60 | Fulfilled stores the payload and clears loading. The error is not touched. |
| User.UserSlice.Rejected | src/features/userSlice/userSlice.ts:61-64 | Rejected clears loading and stores the message or the fallback. The user is kept. |
| User.UserSlice.RunGetUser | src/features/userSlice/userSlice.ts:34-64 | After a dispatch the slice is idle. It holds the user on success, and "Неизвестная ошибка" with the old user on failure. |
| Selection.Without | src/page/transaction/transaction.tsx:71 | Every occurrence of the id goes and everything else stays. |
| Selection.WithoutIsWithoutKeys | src/page/transaction/transaction.tsx:71 | The `filter` is the slices' delete merge with the id as its own key and only that id deleted. |
| Selection.WithoutKeepsOrder | src/page/transaction/transaction.tsx:71 | The ids that stay keep their order, so a toggle that removes an id leaves the rest of the selection in order. |
| Selection.WithoutKeepsNoDuplicates | src/page/transaction/transaction.tsx:71 | Removing an id keeps a duplicate-free selection duplicate-free. |
| Selection.Toggle | src/page/transaction/transaction.tsx:69-73 | A selected id is removed. An absent id is appended at the end. |
| Selection.ToggleKeepsNoDuplicates | src/page/autoTransaction/autoTransaction.tsx:80-84 | The selection never holds an id twice. |
| Selection.ToggleTwiceRestores | src/page/transaction/transaction.tsx:69-73 | Toggling an absent id twice restores the selection. |
| Selection.WithoutAppended | src/page/transaction/transaction.tsx:71 | Removing an id that was just appended gives the list before the append. |
| Selection.ToggleTwiceMovesToEnd | src/page/transaction/transaction.tsx:69-73 | Toggling a selected id twice keeps the same ids, with that one moved to the end. |
| Forms.AddAllowed | src/page/transaction/transaction.tsx:100 | The add guard lets through exactly a name that is not blank together with a positive amount. |
| Forms.HandleDeleteSelected | src/page/autoTransaction/autoTransaction.tsx:86-91 | An empty selection sends nothing. Otherwise the whole selection is sent, and after a successful delete the selection is emptied. |
| Forms.TextOrUndefined | src/page/transaction/transaction.tsx:86 | An empty field becomes `undefined`. Any other text is kept as it is. |
| Forms.NumberOrUndefined | src/page/transaction/transaction.tsx:87-90 | An empty field becomes `undefined`. Any other text becomes `Number` of it (`Text.NumberOf`). |
| TransactionPage.ParseNumberInput | src/page/transaction/transaction.tsx:63 | An input without digits parses as 0. A digit string parses as its decimal value. |
| TransactionPage.ParseNumberInputRoundTrip | src/page/transaction/transaction.tsx:63 | Parsing a number's decimal form gives the number back. |
| TransactionPage.ParseIgnoresNonDigits | src/page/transaction/transaction.tsx:63 | Characters that are not digits are ignored, wherever they stand. |
| TransactionPage.DigitsOnlyAppend | src/page/transaction/transaction.tsx:63 | Stripping non-digits splits over concatenation. |
| TransactionPage.NoDigits | src/page/transaction/transaction.tsx:63 | A string without digits strips to the empty string. |
| TransactionPage.Truncate | src/page/transaction/transaction.tsx:138-142 | A short description is kept. A long one becomes its first `maxLength` characters followed by "...". |
| TransactionPage.TruncateIdempotent | src/page/transaction/transaction.tsx:138-142 | Truncating twice gives the same text as truncating once. |
| TransactionPage.HasType | src/page/transaction/transaction.tsx:145 | `t.type?.id === typeId`: a transaction without a type matches no id; one with a type matches exactly its own id. |
| TransactionPage.OfType | src/page/transaction/transaction.tsx:145 | The filter keeps exactly the transactions of the type: every kept one has the type and comes from the list, and every one of the type is kept. |
| TransactionPage.OfTypeKeepsOrder | src/page/transaction/transaction.tsx:145 | The kept transactions are a subsequence of the list, in its order. |
| TransactionPage.Balance | src/page/transaction/transaction.tsx:144-152 | The balance equals the sum over all transactions of their signed amounts: plus an income, minus an expense, nothing for any other type. |
| TransactionPage.TotalsAreSignedSum | src/page/transaction/transaction.tsx:144-152 | The income total minus the expense total counts each transaction once, with its sign. |
| TransactionPage.SumAmounts | src/page/transaction/transaction.tsx:146 | The `reduce` over `amount ?? 0` is 0 when every amount is missing or 0, and never negative when no amount is. |
| TransactionPage.Total | src/page/transaction/transaction.tsx:144-150 | A type's total is 0 when no transaction has that type, and never negative when no amount is. |
| TransactionPage.OfTypeAppend | src/page/transaction/transaction.tsx:145 | The type filter splits over concatenation. |
| TransactionPage.SumAmountsAppend | src/page/transaction/transaction.tsx:146 | The amount sum splits over concatenation. |
| TransactionPage.TotalAppend | src/page/transaction/transaction.tsx:144-150 | A total over two lists is the sum of their totals. |
| TransactionPage.TotalOfOne | src/page/transaction/transaction.tsx:144-150 | One transaction adds its amount, or 0 when the amount is missing, to its own type's total only. |
| TransactionPage.BalanceAfterAdd | src/page/transaction/transaction.tsx:144-152 | Adding a transaction raises the balance by an income's amount and lowers it by an expense's amount. Other types leave it. |
| TransactionPage.HandleAdd | src/page/transaction/transaction.tsx:98-110 | The form is sent exactly when its name is not blank and its amount is positive. After a successful add the name, amount and description are cleared. |
| TransactionPage.ClearedFormIgnored | src/page/transaction/transaction.tsx:106 | The cleared form is refused until it is filled in again. |
| TransactionPage.FiltersOf | src/page/transaction/transaction.tsx:82-93 | Each field is `undefined` exactly when it is empty. A filled text field is kept as typed, and a filled amount field becomes `Number` of it. |
| TransactionPage.AmountFieldInQuery | src/page/transaction/transaction.tsx:87-90 | An empty, blank or zero amount field is left out of the query. A positive digit string is sent as its canonical decimal form. |
| TransactionPage.NegativeAmountSent | src/page/transaction/transaction.tsx:87-90 | A negative whole amount is truthy, so it is sent, written as "-" and its digits. |
| TransactionPage.SubmitFilter | src/page/transaction/transaction.tsx:82-96 | Each empty field leaves its key out of the query, filled text fields are sent as typed, and the keys come in their fixed order. |
| TransactionPage.OpenEditModal | src/page/transaction/transaction.tsx:112-123 | The id, name, date and amount are copied. A missing description becomes "". A missing type, or a type id of 0, becomes 2. |
| AutoTransactionPage.BlankForm | src/page/autoTransaction/autoTransaction.tsx:54-61 | The initial form has an empty name, amount 0, type 2, frequency 0 and the start date now. |
| AutoTransactionPage.HandleAdd | src/page/autoTransaction/autoTransaction.tsx:107-128 | The form is sent with `categoryId: null` exactly when the name is not blank and the amount is positive. After a successful add the form is reset. |
| AutoTransactionPage.BlankFormIgnored | src/page/autoTransaction/autoTransaction.tsx:117-124 | The reset form is refused until it is filled in again. |
| AutoTransactionPage.OpenEditModal | src/page/autoTransaction/autoTransaction.tsx:130-143 | The id, name, amount and next run date are copied. Only a missing field is defaulted: type 2, frequency 0, active, no category. |
| AutoTransactionPage.ZeroTypeIdKeptOnlyHere | src/page/autoTransaction/autoTransaction.tsx:136 | Whatever the type's name, a type id of 0 survives this `??` default, but becomes 2 under the transactions page's `||`. |
| AutoTransactionPage.FiltersOf | src/page/autoTransaction/autoTransaction.tsx:93-102 | Each of Name, AmountFrom and AmountTo is `undefined` exactly when it is empty. A filled name is kept as typed, and a filled amount becomes `Number` of it. |
| AutoTransactionPage.SubmitFilter | src/page/autoTransaction/autoTransaction.tsx:93-105 | Each empty field leaves its key out of the query, and the three keys come in their fixed order. |
| HomePage.BalanceInput | src/page/home/home.tsx:217-222 | No digits gives 0. Several digits with a leading "0" are refused and the balance stays. A canonical digit string becomes its value. |
| HomePage.BalanceInputExact | src/page/home/home.tsx:217-222 | When the input is taken, the balance's decimal form is exactly the digits typed. |
| HomePage.BalanceInputOfNumber | src/page/home/home.tsx:217-222 | Typing a number's own decimal form sets the balance to that number. |
| HomePage.LeadingZeroGuardNeverFires | src/page/home/home.tsx:55-56 | The second create guard never fires, whatever the whole-number balance. |
| HomePage.HandleCreateAccount | src/page/home/home.tsx:53-68 | Nothing is sent for a blank name. Otherwise the name, balance and selected currency are sent with `isDefault` false, and the name and balance reset. |
| HomePage.OpenModal | src/page/home/home.tsx:44-51 | After a fulfilled `getCurrency`, the list is shown and the first currency's id is selected, or 1 when the list is empty. A rejection changes nothing. |
| HomePage.HandleEdit | src/page/home/home.tsx:75-83 | The edit data is set from the first account with the id only when one exists. The menu closes in either case. |
| HomePage.HandleUpdateAccount | src/page/home/home.tsx:85-90 | Nothing is sent without edit data or with a blank name. Otherwise the edit is sent with `isDefault` false and the data is cleared. |
| Sidebar.MenuItems | src/components/sidebar/sidebar.tsx:27-46 | A path starting with "/transactions" or "/auto-transaction" shows accounts, transactions and recurring rules. Any other path shows accounts and reports. Accounts always comes first. |
| Sidebar.InTransactionsSection | src/components/sidebar/sidebar.tsx:27-29 | A path is in the transactions section exactly when the transactions item or the recurring-rules item would be highlighted on it. |
| Sidebar.IsActive | src/components/sidebar/sidebar.tsx:94 | An item is highlighted exactly when the path is the item's path followed by anything. |
| Sidebar.PrefixesAgree | src/components/sidebar/sidebar.tsx:94 | Two prefixes of one path agree on their common length. |
| Sidebar.PathsIndependent | src/components/sidebar/sidebar.tsx:27-46 | No menu path is a prefix of another. |
| Sidebar.AtMostOneActive | src/components/sidebar/sidebar.tsx:93-94 | At most one menu item is highlighted for any path. |
| Sidebar.PrefixIsNotSegment | src/components/sidebar/sidebar.tsx:94 | The active test is a plain prefix test, so "/transactions-archive" highlights the transactions item. |
| Sidebar.Toggle | src/components/sidebar/sidebar.tsx:21-25 | `toggle` flips the state and reports the new value to the parent's callback when there is one. |
| Sidebar.ToggleTwice | src/components/sidebar/sidebar.tsx:21-25 | Toggling twice gives the first state back. |
| Sidebar.Mounted | src/components/sidebar/sidebar.tsx:18-52 | On a window narrower than 768 pixels the sidebar ends closed. Otherwise it is open unless `collapsed`. |
| Sidebar.SignOut | src/components/sidebar/sidebar.tsx:112-115 | Signing out empties storage. |

## Left out

- HTTP requests, their URLs and headers, Blob/DOM file downloads, the import template and the multipart import upload (`transactionSlice.ts` 38-67, 81-97, 116-140) are not modelled. Each request is an input to its thunk: the reply body, or `None` when the request threw.
- The `Promise.all` in `fetchReports` and the interleaving of in-flight thunks are left out. Concurrency is outside the model, and each `Run*` method is one whole dispatch.
- Nothing de-duplicates concurrent refreshes in the code, and the model has no concurrency to show it.
- Percent-encoding of `URLSearchParams.toString()` is left out. The query is the ordered list of pairs before encoding.
- Text.NumberOf reads only blank text and whole numbers with an optional minus sign. For any other text, such as "1.5" or "1e3", the value is the parameter `otherwise`, and nothing is proved about it. A fraction is carried as its `toString()` text (`Text.JsNumber.Fraction`). Floating-point arithmetic and whole numbers above 2^53 are outside the model.
- TransactionPage.Truncate counts Unicode scalar values, where JavaScript's `length` and `slice` count UTF-16 code units. A description with characters outside the Basic Multilingual Plane, such as an emoji, is cut at a different place, and the code can split a surrogate pair, which a Dafny string cannot hold.
- TransactionPage.HandleAdd: `after` is the form after a successful add. A rejected add throws out of the handler through `.unwrap()`, and the form stays as it was. The `getTransactions` re-fetch that follows a successful add (transaction.tsx:104) is not part of the handler's model; its effect on the slice is `Transactions.TransactionSlice.RunGetTransactions`.
- AutoTransactionPage.HandleAdd: `after` is the form after a successful add, and a rejected add leaves the form as it was. The `getAutoTransactions` re-fetch that follows (autoTransaction.tsx:115) is `AutoTransactions.AutoTransactionSlice.RunGetAutoTransactions`, not part of the handler's model.
- Forms.HandleDeleteSelected: `after` is the selection after a successful delete. A rejected delete throws out of the handler through `.unwrap()`, and the selection is kept.
- Locale formatting with `toLocaleString` and the date arithmetic for the minimum next-run date are left out. The start date `new Date().toISOString()` is a parameter `now`.
- ApiClient.Client.HandleResponseError does not model the in-place mutation of `originalRequest._retry` as seen through the caller's error object. It returns the re-sent config instead, and the outcome of re-sending it through `api` is left to the caller.
- Accounts.AccountSlice.RunCreateAccount: when the create reply has no account, the code pushes `undefined` onto the list, and the model leaves the list unchanged. The list holds `Account` values, so `undefined` has no representation.
- Transactions.TransactionSlice.RunAddTransaction and AutoTransactions.AutoTransactionSlice.RunAddAutoTransaction take a present reply body as the created entity. A body without `data` would be prepended as `undefined` by the code, and the model does not represent that.
- App.tsx's restore effect reads a key named "token" and dispatches an action no reducer handles, so it has no effect. It is not part of this model.
- Rendering, modals, routing, navigation after sign-out and the React state setters are not modelled. The setters are only sinks for the values the helpers compute.
- The report page's charts are not part of this model.
- `getCurrency` has no reducer case, and its result is modelled only through `HomePage.OpenModal`.
