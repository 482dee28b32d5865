# Money organizer front end: stores, router guard and CSRF interceptor

This project is a Dafny model of the client-side state of the money organizer
single-page application. It covers:

- **Resource stores.** The category, expense and deposit stores each hold a
  cached list of records, the record being viewed, a `loading` flag and an
  `error` message. They keep the list in step with the remote API:
  - a fetch replaces the list;
  - a create appends to it;
  - an update overwrites the first record with the requested id;
  - a delete drops every record with that id.

  A failure leaves the list as it was and records `error.message`, or a
  fixed Polish message when `error.message` is empty. Fetches swallow the
  failure. Create, update and delete re-raise it. The category store's
  getters (by id, main, sub, income, expense, main income, main expense) are
  functions over the cached list.
- **Session store** (`auth.js`). It tracks the signed-in user. It drives the
  CSRF handshake and the user, login, register, logout, profile and password
  endpoints, and records the server's message, or a fixed English message,
  on failure. A ghost `trace` records which remote steps each action took,
  in order.
- **Router.** The eighteen routes with their `requiresAuth`/`requiresGuest`
  flags, and the `beforeEach` guard. The guard loads the user when none is
  loaded. It then sends a signed-out visitor on a private route to `login`
  (with a `redirect` back), sends a signed-in user on a guest-only route or
  on the landing page to `home`, and lets everything else through.
- **HTTP client** (`axios.js`). `getCookie` reads a cookie with the regular
  expression `(^|;\s*)(NAME)=([^;]*)`. The model follows its leftmost match,
  its `^`-before-`;` alternation and its greedy, backtracking `\s*`. The
  request interceptor copies a non-empty `XSRF-TOKEN` cookie, decoded, into
  the `X-XSRF-TOKEN` header of the outgoing request.

Remote calls are not performed. Each call's outcome is an input: `Ok` with
the response data, or `Err` with a `Failure` that carries `error.message` and
the server's `error.response.data.message`. The ids that the views pass are
strings that the stores convert with `parseInt`. Such an id is an
`Option<int>`, with `None` standing for NaN, which equals no id. The cookie
string (`document.cookie`) is an input, and so is `decodeURIComponent`.

Modules:

- `Remote` (`remote.dfy`): outcomes and error texts.
- `Collections` (`collections.dfy`): `find`, `findIndex` and `filter`, and
  their laws.
- `Categories`, `Expenses`, `Deposits` (`category.dfy`, `expense.dfy`,
  `deposit.dfy`): the resource stores.
- `Auth` (`auth.dfy`): the session store.
- `Router` (`router.dfy`): the route table and the guard.
- `Http` (`axios.dfy`): the cookie lookup and the interceptor.

The stores are classes whose methods update their fields in place, like the
Pinia actions.

## Model

| member | source | states |
|---|---|---|
| Remote.ClientText | src/stores/category.js:42 | `error.message \|\| fallback`: the failure's own message when it is non-empty, otherwise the store's fallback text |
| Remote.ServerText | src/stores/auth.js:28 | `error.response?.data?.message \|\| fallback`: the server's message when present and non-empty, otherwise the fallback text |
| Collections.FindIndex | src/stores/category.js:106-107 | the index of the first record whose id equals `parseInt(id)`, or -1 exactly when no record has it; NaN matches nothing |
| Collections.Find | src/stores/category.js:12-14 | `find`: none exactly when no record has the id; otherwise the first record, in list order, that has it |
| Collections.Filter | src/stores/category.js:15-32 | `filter`: the result holds exactly the elements that satisfy the test and is no longer than the input |
| Collections.Without | src/stores/category.js:124 | `filter(x => x.id !== parseInt(id))`: exactly the records whose id differs, in their original order |
| Collections.FilterKeepsOrder | src/stores/category.js:15-32 | the survivors of a filter are a subsequence of the input |
| Collections.FilterCounts | src/stores/category.js:15-32 | a filter keeps each passing element as often as the input holds it, and drops every other element |
| Collections.FilterConcat | src/stores/category.js:15-32 | filtering a concatenation is concatenating the filtered parts |
| Collections.FilterComplement | src/stores/category.js:21-26 | filtering by a test and by its negation splits the input: the two results together are a permutation of it |
| Collections.FilterFilter | src/stores/category.js:27-32 | filtering by `p` then by `q` is filtering once by `p && q` |
| Collections.WithoutUnknownId | src/stores/category.js:120-133 | deleting an id that no cached record has (NaN included) leaves the list unchanged |
| Collections.FilterKeepsAll | src/stores/category.js:120-133 | a filter that every element passes returns its input |
| Categories.CategoryById | src/stores/category.js:12-14 | `getCategoryById`: no record (`undefined`, `None`) exactly when no cached category has id `parseInt(id)`; otherwise the first cached category with that id |
| Categories.MainCategories | src/stores/category.js:15-17 | `getMainCategories`: exactly the cached categories that are main ones, in cache order |
| Categories.SubCategories | src/stores/category.js:18-20 | `getSubCategories`: exactly the cached categories whose `parent_id` equals `parseInt(parentId)`, none for NaN, in cache order |
| Categories.IncomeCategories | src/stores/category.js:21-23 | `getIncomeCategories`: exactly the cached income categories, in cache order |
| Categories.ExpenseCategories | src/stores/category.js:24-26 | `getExpenseCategories`: exactly the cached categories that are not income ones, in cache order |
| Categories.MainIncomeCategories | src/stores/category.js:27-29 | `getMainIncomeCategories`: exactly the cached main income categories, in cache order |
| Categories.MainExpenseCategories | src/stores/category.js:30-32 | `getMainExpenseCategories`: exactly the cached main expense categories, in cache order |
| Categories.IncomeExpensePartition | src/stores/category.js:21-26 | every cached category is in exactly one of the income and expense views; both views keep the cache's order; together they hold every category as often as the cache does |
| Categories.MainIncomeCategoriesExact | src/stores/category.js:27-29 | `getMainIncomeCategories` holds each main income category as often as the cache does, and nothing else, in cache order |
| Categories.MainCategoriesSplit | src/stores/category.js:15-17 | the main income and main expense views together are a permutation of `getMainCategories` |
| Categories.CreatedCategoryJoinsItsViews | src/stores/category.js:87-101 | after `createCategory` appends a category, each of the five views is its old value followed by the new category exactly when the category passes that view's test, and is unchanged otherwise |
| Categories.AppendFilter | src/stores/category.js:15-32 | filtering the cache with one category appended is filtering the cache, then adding that category if it passes |
| Categories.MainIncomeCategoriesExample | src/stores/category.js:27-29 | of a main income, a main expense and a sub income category, only the first is a main income category |
| Categories.DeleteCategoryExample | src/stores/category.js:120-133 | deleting id 5 from the cache `[5, 7]` leaves `[7]` |
| Categories.CategoryStore.constructor | src/stores/category.js:5-10 | the initial state: no categories, no category, not loading, no error |
| Categories.CategoryStore.FetchList | src/stores/category.js:35-73 | the shared shape of the list fetches: success replaces the cache and clears the error; failure keeps the cache and records the message without raising |
| Categories.CategoryStore.FetchCategories | src/stores/category.js:35-47 | success replaces the cache and clears the error; failure keeps the cache and records the message or the fallback text; the viewed category is untouched; loading ends false |
| Categories.CategoryStore.FetchIncomeCategories | src/stores/category.js:48-60 | as `fetchCategories`, with the income fallback text |
| Categories.CategoryStore.FetchExpenseCategories | src/stores/category.js:61-73 | as `fetchCategories`, with the expense fallback text |
| Categories.CategoryStore.FetchCategory | src/stores/category.js:74-86 | success sets the viewed category; failure keeps it and records the message; the cache is never touched |
| Categories.CategoryStore.CreateCategory | src/stores/category.js:87-101 | success appends exactly the created category to the cache and returns it; failure keeps the cache, records the message and re-raises |
| Categories.CategoryStore.UpdateCategory | src/stores/category.js:102-119 | success overwrites the first cached category with the id and changes nothing else, or changes nothing when no category has it, and returns the server's record either way; the length is preserved; failure records and re-raises |
| Categories.CategoryStore.DeleteCategory | src/stores/category.js:120-133 | success removes exactly the cached categories with the id and keeps the rest in order; failure keeps the cache, records the message and re-raises |
| Expenses.ExpenseById | src/stores/expense.js:12-14 | `getExpenseById`: no record (`undefined`, `None`) exactly when no cached expense has the id; otherwise the first one with it |
| Expenses.ExpenseStore.constructor | src/stores/expense.js:5-10 | the initial state: no expenses, no expense, not loading, no error |
| Expenses.ExpenseStore.FetchExpenses | src/stores/expense.js:17-29 | success replaces the cache; failure keeps it and records the message without raising |
| Expenses.ExpenseStore.FetchExpense | src/stores/expense.js:30-42 | success sets the viewed expense; failure keeps it and records the message; the cache is untouched |
| Expenses.ExpenseStore.CreateExpense | src/stores/expense.js:43-57 | success appends exactly the created expense; failure keeps the cache, records and re-raises |
| Expenses.ExpenseStore.UpdateExpense | src/stores/expense.js:58-75 | success overwrites the first cached expense with the id, if any, and nothing else; failure records and re-raises |
| Expenses.ExpenseStore.DeleteExpense | src/stores/expense.js:76-89 | success removes exactly the cached expenses with the id; failure keeps the cache, records and re-raises |
| Deposits.DepositById | src/stores/deposit.js:12-14 | `getDepositById`: no record (`undefined`, `None`) exactly when no cached deposit has the id; otherwise the first one with it |
| Deposits.DepositStore.constructor | src/stores/deposit.js:5-10 | the initial state: no deposits, no deposit, not loading, no error |
| Deposits.DepositStore.FetchDeposits | src/stores/deposit.js:17-29 | success replaces the cache; failure keeps it and records the message without raising |
| Deposits.DepositStore.FetchDeposit | src/stores/deposit.js:30-42 | success sets the viewed deposit; failure keeps it and records the message; the cache is untouched |
| Deposits.DepositStore.CreateDeposit | src/stores/deposit.js:43-57 | success appends exactly the created deposit; failure keeps the cache, records and re-raises |
| Deposits.DepositStore.UpdateDeposit | src/stores/deposit.js:58-75 | success overwrites the first cached deposit with the id, if any, and nothing else; failure records and re-raises |
| Deposits.DepositStore.DeleteDeposit | src/stores/deposit.js:76-89 | success removes exactly the cached deposits with the id; failure keeps the cache, records and re-raises |
| Auth.SignInSteps | src/stores/auth.js:36-54 | a sign-in always starts with the CSRF handshake; the sign-in call runs only after a successful handshake; the user fetch runs only after a successful sign-in call |
| Auth.FirstFailure | src/stores/auth.js:76-95 | the failure that ends a two-step action: the handshake's if it failed, else the call's; none exactly when both succeed |
| Auth.AuthStore.constructor | src/stores/auth.js:6-10 | the initial state: no user, not loading, no error |
| Auth.AuthStore.IsAuthenticated | src/stores/auth.js:13 | `isAuthenticated` holds exactly when a user is present; FetchUser and Logout state when that is the case |
| Auth.AuthStore.UserFullName | src/stores/auth.js:14 | `userFullName`: the user's name, or the empty string when signed out |
| Auth.AuthStore.UserAvatar | src/stores/auth.js:15 | `userAvatar`: the user's avatar, or none when signed out |
| Auth.AuthStore.FetchUser | src/stores/auth.js:19-34 | success stores and returns the user; failure signs out, returns null and records the message; afterwards `isAuthenticated` holds exactly when the fetch succeeded, and a signed-out store has an empty name and no avatar |
| Auth.AuthStore.SignIn | src/stores/auth.js:36-74 | the shared body of login and register: handshake, call, then `fetchUser`; an early failure keeps the user and records the message; otherwise the result is `fetchUser`'s |
| Auth.AuthStore.Login | src/stores/auth.js:36-54 | login signs the user in exactly when the handshake, the login call and the user fetch all succeed; an early failure keeps the previous user |
| Auth.AuthStore.Register | src/stores/auth.js:56-74 | as login, with the register call and the registration fallback text |
| Auth.AuthStore.Logout | src/stores/auth.js:76-95 | returns true exactly when the handshake and the logout call both succeed, and only then clears the user; otherwise it keeps the user and records the message |
| Auth.AuthStore.UpdateProfile | src/stores/auth.js:97-116 | success replaces the user with the returned one and returns it; failure keeps the user, returns null and records the message |
| Auth.AuthStore.UpdatePassword | src/stores/auth.js:118-136 | never changes the user; returns true exactly when both steps succeed, otherwise records the message |
| Router.NoRouteHasBothFlags | src/router/index.js:12-130 | no route is both private and guest-only |
| Router.GuestRoutesAreLoginAndRegister | src/router/index.js:12-130 | a route is guest-only exactly when it is `login` or `register` |
| Router.PrivateRoutesAreTheRest | src/router/index.js:12-130 | a route needs authentication exactly when it is not `landing`, `login` or `register` |
| Router.RouteNamesAreUnique | src/router/index.js:12-130 | no two routes share a name |
| Router.Decide | src/router/index.js:146-161 | redirect to login (with the target's full path) exactly when the target is private and nobody is signed in; redirect home exactly when a signed-in user targets a guest-only route or the landing page; otherwise proceed |
| Router.GuardKeepsEachVisitorOnTheirSide | src/router/index.js:12-161 | over the route table, a signed-in user is only let through to routes other than `landing`, `login` and `register`, and a signed-out visitor only to those three |
| Router.BeforeEach | src/router/index.js:134-162 | the user is fetched only when none is loaded, and a loaded session is left untouched; after a fetch the store holds the fetched user with no error, or no user with the server's message or 'Failed to fetch user', and is not loading; the decision is `Decide` on the resulting session |
| Http.SpaceRun | src/services/axios.js:33 | the greedy `\s*`: the whitespace run at an index, ending at the end of the string or at a non-whitespace character |
| Http.Backtrack | src/services/axios.js:33 | backtracking `\s*`: the longest whitespace prefix after which `NAME=` follows, or none when no shorter one works either |
| Http.MatchAt | src/services/axios.js:33 | a match attempt at a start position succeeds only on `NAME=` preceded by that position's `^` or `;\s*` |
| Http.FirstMatch | src/services/axios.js:33 | the leftmost start position at which the regular expression matches |
| Http.ValueAt | src/services/axios.js:33 | `([^;]*)`: the text from an index up to the next `;` or the end, containing no `;` |
| Http.MatchAtComplete | src/services/axios.js:33 | an attempt at `p` succeeds whenever some `NAME=` has its prefix starting at `p` |
| Http.FirstMatchSkips | src/services/axios.js:33 | every attempt before the leftmost match, or every attempt when there is none, fails |
| Http.GetCookie | src/services/axios.js:32-35 | `getCookie` returns null exactly when `NAME=` occurs neither at the start of the string nor after `;` and optional whitespace; a value it returns contains no `;`; GetCookieFound and GetCookieTakesFirst say which value it is |
| Http.GetCookieFound | src/services/axios.js:32-35 | a found value is the text after `=` of a `NAME=` at the start of the string or after `;` and optional whitespace, up to the next `;` |
| Http.MatchIsOccurrence | src/services/axios.js:33 | a successful match attempt finds an occurrence of `NAME=` at the start of the string or after `;` and optional whitespace |
| Http.NoMatchMeansNoOccurrence | src/services/axios.js:33 | when the scan finds no match, no such occurrence of `NAME=` exists anywhere in the string |
| Http.GetCookieTakesFirst | src/services/axios.js:32-35 | the value comes from the first such occurrence in the string |
| Http.OnlyFirstCookieWithoutSemicolon | src/services/axios.js:32-35 | in a string without `;`, only a cookie at the very start is found |
| Http.NoMatchInsideLongerName | src/services/axios.js:32-35 | `MY-XSRF-TOKEN=v` does not yield the `XSRF-TOKEN` cookie |
| Http.FirstOfTwoCookies | src/services/axios.js:32-35 | with two `XSRF-TOKEN` cookies the first wins, and its value stops at the `;` |
| Http.WithXsrfHeader | src/services/axios.js:15-24 | the header is set to the decoded token exactly when the cookie lookup yields a non-empty value; every other header is kept as it was |
| Http.RequestConfig.constructor | src/services/axios.js:4-11 | a request configuration with credentials enabled |
| Http.InterceptRequest | src/services/axios.js:14-25 | returns the same configuration object; only its headers change, to `WithXsrfHeader` of the old ones |

## Left out

- Service modules (`AuthService`, `CategoryService`, `CsrfService`, `DepositService`, `ExpenseService`): their requests are not modelled. Each call's outcome is an input, and the URLs they build are not modelled.
- `StatisticsService` and the Google OAuth URL helper: no store in this model uses them.
- `main.js` and `vite.config.js`: application bootstrap and build configuration, with no state of their own.
- Vue components and views: they only call the stores.
- Concurrency: each action runs to completion before another starts. `loading` is `true` only while a call is in flight, so the model states only its final value, `false`. Interleaved actions racing on the same store are not modelled.
- `console.error` logging: it has no effect on state.
- The fallback messages that interpolate the id (`... o ID ${id}`): the model keeps only the fixed text before the id.
- `fetchCategories(type)`: `type` only selects the request URL, so the model has no `type` parameter.
- The response shapes: each response is taken to carry the expected field (`data.categories`, `data.expense`, `data.user`, and so on). A missing field, which would store `undefined`, is not modelled.
- JavaScript truthiness of response data: a fetched user is always an object. The `!!state.user` of a falsy payload is not modelled.
- `parseInt`: only its result is modelled, as a number or NaN (`None`). Parsing of the string itself is left out.
- The guard's `try`/`catch` around `fetchUser`: it is not modelled, because `fetchUser` catches its own failures and never rejects, so the `catch` cannot run.
- The axios instance's base URL and default `Accept`/`Content-Type` headers: only `withCredentials` and the headers map are kept. The interceptor's error handler, which passes the rejection on, is not modelled.
- `document.cookie` and `decodeURIComponent`: both are inputs. The `URIError` that `decodeURIComponent` raises on a malformed escape is not modelled.
- `getCookie` inserts the name into the regular expression unescaped. The model treats the name as literal text. The only caller passes `XSRF-TOKEN`, which has no metacharacters.
- Http.GetCookieTakesFirst: stated only for names whose first character is not whitespace, such as `XSRF-TOKEN`. For such a name the greedy `\s*` cannot skip past an earlier occurrence.
