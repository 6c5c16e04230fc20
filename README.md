# User-directory console: the page logic, modelled in Dafny

The console is a React client over a remote user-directory service. It lets you
log in, list users a page at a time, search the listed page, delete users and
edit one user. This project models the sequential logic behind those screens
and proves what each handler does:

- **Pagination** (`pagination.dfy`). `getPageNumbers` builds a window of at most
  five consecutive page buttons. The module also has the previous/next targets,
  when those buttons are disabled, and when the bar is hidden.
- **User list** (`user_list.dfy`). A class holds the page's state: `users`,
  `filteredUsers`, `loading`, `error`, `currentPage`, `totalPages` and
  `searchQuery`. It has the fetch, page-change, search and delete handlers. Its
  invariant is that the filtered view is an order-preserving subsequence of the
  held page.
- **Edit page** (`edit_user.dfy`). The draft and its messages, `validateForm`,
  `handleChange`, `handleSubmit`, the outcomes of fetching the user, and which
  screen is shown.
- **Login page** (`login.dfy`). `validateForm`, which builds a key/message map,
  and the `handleSubmit` guard in front of `login`.
- **Session** (`auth.dfy`). The durable token slot plus `token`,
  `isAuthenticated` and `loading`. It covers the state at mount, `login` and
  `logout`.
- **Shared pieces.** `text.dfy` has `trim`, `toLowerCase`, `includes` and the
  email test `/\S+@\S+\.\S+/`. The test is stated twice and proved equivalent:
  once as the regular expression's unanchored search, once as an `@`…`.`
  window. `validation.dfy` has the email rule both forms use, and
  `sequences.dfy` has `Array.filter` and the subsequence relation.
  `api.dfy` and `optional.dfy` hold the service's records, the outcome of a
  request, and the optional value. `routes.dfy` holds the two routes the
  handlers navigate to.

Each remote request is modelled as an `Outcome` argument to the handler: either
`Success(payload)` or `Failure`. So every handler is verified against every
possible reply. The model records the requests a handler makes in log fields
(`pageRequests`, `deleteRequests`, `updateRequests`, `loginRequests`), which
makes "no request is made" something a contract can state. Calls to
`navigate(...)` are recorded in `navigatedTo`.

Two places where the model follows the code more closely than a summary of it
would:

- The list page refetches after a page change only when the page number
  actually changes. The fetch runs in an effect that watches `currentPage`, and
  setting a state to the value it already has does not re-run that effect.
- `fetchUsers` sets the filtered view to the whole new page even when a search
  query is set. The query is kept, but `fetchUsers` does not apply it. It is
  applied again later, by the search box's timer: `handleSearch` is a new
  function on every render, and the search box's debounce effect depends on
  it, so every render schedules `onSearch(query)` 300 ms later. The model
  leaves that timer out (see "Left out"). So after a fetch, the model's view is
  the one the page shows until the timer fires.

## Model

| member | source | states |
|---|---|---|
| `Pagination.PageWindow` | src/components/Pagination.tsx:13-29 | For any inputs, the buttons are consecutive pages inside `[1, totalPages]`. For a current page in range, there are exactly `min(5, totalPages)` of them and they include the current page, which sits in the middle when two pages exist on each side. With five pages or fewer, every page is shown. For a current page in range, the window is exactly `max(1, min(c-2, T-4))` .. `min(T, max(c+2, 5))`, so on the first two pages it starts at page 1, and on the last two it ends at the last page. |
| `Pagination.GetPageNumbers` | src/components/Pagination.tsx:13-29 | The loop that pushes pages from the start to the end returns exactly `PageWindow`. |
| `Pagination.PrevTarget` | src/components/Pagination.tsx:36 | For a current page in range, the previous target stays in `[1, totalPages]`, and it equals the current page only on page 1. |
| `Pagination.NextTarget` | src/components/Pagination.tsx:59 | For a current page in range, the next target stays in `[1, totalPages]`, and it equals the current page only on the last page. |
| `Pagination.DisabledExactlyWhenTargetIsCurrent` | src/components/Pagination.tsx:31-60 | For any cursor, in range or not, prev is disabled exactly when its target is the current page, and the same holds for next. When the bar is rendered (`totalPages > 1`), the two are never both disabled. |
| `Text.TrimStartRemovesLeadingSpace` | src/pages/EditUser.tsx:63 | `trimStart` keeps a suffix that does not start with whitespace, and everything it drops is whitespace. |
| `Text.TrimEndRemovesTrailingSpace` | src/pages/EditUser.tsx:63 | `trimEnd` keeps a prefix that does not end with whitespace, and everything it drops is whitespace. |
| `Text.BlankIffNoText` | src/pages/EditUser.tsx:63-73 | `!s.trim()` holds exactly when `s` has no non-whitespace character. |
| `Text.LowerChar` | src/pages/UserList.tsx:63-65 | Lower-casing leaves no upper-case ASCII letter, shifts `A`..`Z` by 32, and leaves every other character alone. |
| `Text.EmailPatternIffShape` | src/pages/EditUser.tsx:76 | The unanchored test `\S+@\S+\.\S+` holds exactly when there are positions p < q as follows: `@` is at p with a non-whitespace character before it; `.` is at q; the characters strictly between p and q are all non-whitespace and there is at least one; a non-whitespace character follows q. |
| `Validation.EmailError` | src/pages/EditUser.tsx:73-79 | A blank address gets "Email is required". A non-blank address that fails the pattern gets "Email is invalid". Otherwise the message is empty. The three cases exclude each other. |
| `Validation.EmailAcceptedIff` | src/pages/Login.tsx:26-30 | The email rule that both forms share accepts an address exactly when it has text and an `@`…`.` window. |
| `Sequences.Filter` | src/pages/UserList.tsx:61-66 | `filter` keeps an element exactly when it is in the input and passes the test, and the result is never longer than the input. |
| `Sequences.FilterCounts` | src/pages/UserList.tsx:61-66 | `filter` keeps every copy of a passing element and no copy of a failing one. The multiset of the result is the input's multiset restricted to the test. |
| `Sequences.FilterIsSubsequence` | src/pages/UserList.tsx:61-68 | What `filter` returns is an order-preserving subsequence of its input. |
| `Sequences.FilterMonotone` | src/pages/UserList.tsx:76-77 | Filtering both sides with the same test keeps one an order-preserving subsequence of the other. |
| `Sequences.SubsequenceElements` | src/pages/UserList.tsx:57 | Every element of a subsequence is an element of the whole, so the filtered view lists only users of the held page. |
| `UserList.MatchingUsers` | src/pages/UserList.tsx:61-66 | A user is kept exactly when the lower-cased, untrimmed query occurs in the lower-cased first name, last name or email. Kept users stay in page order, and every copy of a matching record is kept. |
| `UserList.WithoutId` | src/pages/UserList.tsx:76-77 | Exactly the records with the deleted id are removed. Every other record stays, with every copy of it, in order. |
| `UserList.SearchResult` | src/pages/UserList.tsx:53-69 | A blank query gives back the whole page, in order. Any other query gives the users that match it, still a subsequence of the page. |
| `UserList.DeletePreservesView` | src/pages/UserList.tsx:76-77 | If the filtered view is a subsequence of the page before a delete, it still is after the id is removed from both. |
| `UserList.SearchIgnoresCase` | src/pages/UserList.tsx:61-66 | On any page that holds Eve Holt, a search for "EVE" finds her. |
| `UserList.SearchMatchesEmailFragment` | src/pages/UserList.tsx:61-66 | A search for "holt@" finds Eve Holt through her email. |
| `UserList.SearchExcludesNonMatch` | src/pages/UserList.tsx:61-66 | A search for "zzz" does not find Eve Holt. |
| `UserList.UserListPage.constructor` | src/pages/UserList.tsx:13-19 | The first render: empty lists, loading, no error, page 1 of 1, empty query. |
| `UserList.UserListPage.FetchUsers` | src/pages/UserList.tsx:22-46 | When anonymous, nothing changes and no request is made. Otherwise one request is made for the page. A reply sets both lists and `totalPages` from it, whatever the query, and clears the error. A failure sets the error and leaves the lists and `totalPages` alone. Loading ends false either way. The view stays a subsequence of the page. |
| `UserList.UserListPage.HandlePageChange` | src/pages/UserList.tsx:44-51 | The cursor moves to the requested page. A fetch follows only when the page changed and the session is authenticated, with the outcomes `FetchUsers` states. Otherwise the lists, totals, loading flag, error and request log are unchanged. The search query and the delete log never change. |
| `UserList.UserListPage.HandleSearch` | src/pages/UserList.tsx:53-69 | The query is recorded, the view becomes `SearchResult` of the held page, and the page itself is unchanged. |
| `UserList.UserListPage.HandleDeleteUser` | src/pages/UserList.tsx:71-84 | One delete request is made. On success, the id is removed from both lists. On failure, both lists are unchanged. `totalPages`, `loading` and `error` never change. |
| `EditUser.Set` | src/pages/EditUser.tsx:88-91 | Spreading in `[name]: value` changes that field and only that field. |
| `EditUser.SetOwnValue` | src/pages/EditUser.tsx:94-99 | Writing back a field's own value changes nothing. This is why clearing only a non-empty message is the same as always clearing it. |
| `EditUser.FormErrors` | src/pages/EditUser.tsx:54-83 | A blank first or last name gets its "…is required" message, and a field without a problem gets `""`. The email gets the shared email rule's message. |
| `EditUser.FormAcceptedIff` | src/pages/EditUser.tsx:54-83 | All three messages are empty exactly when both names and the email have text and the email has an `@`…`.` window. |
| `EditUser.CompleteDraftAccepted` | src/pages/EditUser.tsx:63-79 | Jane / Doe / jane@doe.com passes validation. |
| `EditUser.MissingFirstNameReported` | src/pages/EditUser.tsx:63-66 | An empty first name is reported as "First name is required". |
| `EditUser.MalformedEmailReported` | src/pages/EditUser.tsx:76-78 | "notanemail" is reported as "Email is invalid". |
| `EditUser.EditUserPage.CurrentScreen` | src/pages/EditUser.tsx:121-134 | The spinner shows exactly while loading. Once loading is over, the error view shows exactly when an error is set or no user was loaded. It shows the error's text, or "User not found" when no error is set. |
| `EditUser.EditUserPage.constructor` | src/pages/EditUser.tsx:12-25 | The first render: no user, loading, not saving, no error, an empty draft and empty messages. |
| `EditUser.EditUserPage.FetchUser` | src/pages/EditUser.tsx:27-52 | Without an id, nothing changes. A reply is kept and its three fields are copied into the draft. A failure sets the error and shows the error view. Loading ends false in both cases. |
| `EditUser.EditUserPage.ValidateForm` | src/pages/EditUser.tsx:54-83 | The messages become `FormErrors` of the draft. The result is true exactly when all three messages are empty. |
| `EditUser.EditUserPage.HandleChange` | src/pages/EditUser.tsx:85-100 | Only the named field of the draft takes the new value, and only its message is cleared. A message that was already empty stays untouched. |
| `EditUser.EditUserPage.HandleSubmit` | src/pages/EditUser.tsx:102-119 | Validation always runs. When it fails, or there is no id, no update request is made and there is no navigation. Otherwise the draft is sent once, and a success navigates to `/users`. The draft is never changed, and `saving` is false at the end. |
| `Login.LoginErrors` | src/pages/Login.tsx:23-38 | The `email` key is present exactly when the shared email rule rejects the address, and it carries that rule's message. The `password` key is present exactly when the password is blank. There are no other keys. |
| `Login.LoginAcceptedIff` | src/pages/Login.tsx:23-38 | The map has no keys exactly when the email has text and an `@`…`.` window and the password has text. This uses the same email rule as the edit form. |
| `Login.LoginPage.constructor` | src/pages/Login.tsx:9-12 | Empty email, empty password, no errors. |
| `Login.LoginPage.ValidateForm` | src/pages/Login.tsx:23-38 | The error map becomes `LoginErrors` of the inputs. The result is true exactly when the map has no keys. |
| `Login.LoginPage.HandleSubmit` | src/pages/Login.tsx:40-50 | A form that fails validation leaves the whole session untouched, so `login` is never reached. Otherwise `login` runs once with the two inputs. A reply stores the token, authenticates the session and navigates to `/users`. A rejection is caught here and leaves the slot, the token, the flag and the route as they were. Loading ends false. |
| `Auth.LoggedOut` | src/context/AuthContext.tsx:59-65 | After logout, the slot and the token are gone, the session is anonymous, and the route is `/`. Loading and the request log are kept. |
| `Auth.LogoutIdempotent` | src/context/AuthContext.tsx:59-65 | Logging out twice gives the same session as logging out once. |
| `Auth.LogoutTwice` | src/context/AuthContext.tsx:59-65 | Calling `logout` twice on a provider leaves it as one call does. |
| `Auth.AuthProvider.constructor` | src/context/AuthContext.tsx:24-36 | At mount, the token equals the slot. The session is authenticated exactly when that token is present and non-empty. Loading is off. |
| `Auth.AuthProvider.StartLogin` | src/context/AuthContext.tsx:38-41 | While the login request is in flight, loading is on and the credentials have been sent. |
| `Auth.AuthProvider.FinishLogin` | src/context/AuthContext.tsx:41-56 | A reply writes the token to the slot and to memory, authenticates the session and navigates to `/users`. A rejection leaves the slot, the token, the flag and the route unchanged and is thrown on. Loading ends false in both cases. |
| `Auth.AuthProvider.Login` | src/context/AuthContext.tsx:38-57 | One request is made with the credentials, and the reply is handled as `FinishLogin` states. A success moves Anonymous to Authenticated. |
| `Auth.AuthProvider.Logout` | src/context/AuthContext.tsx:59-65 | The provider's new state is `LoggedOut` of its old state, which is the Anonymous phase. |

## Left out

- The HTTP client and its token interceptor (`src/services/api.ts`). Each request is an `Outcome` argument. The bearer header is not modelled.
- Rendering, CSS, icons, spinners, toasts and `console.error`. These are presentation only. The model keeps only which screen the edit page shows, and `navigate(...)` is recorded as a target route.
- `window.scrollTo` in `handlePageChange`. It is a side effect on the browser window.
- The debounce timer of the search box (`src/components/SearchBar.tsx:14-20`). It is scheduling, not logic. Because of it, the page applies the query again 300 ms after every render, including the render after a fetch. The model does not show that reapplication: after `FetchUsers`, the view stays the whole page until a `HandleSearch` call.
- The route table, `ProtectedRoute` and the Navbar path test (`src/App.tsx`, `src/components/Navbar.tsx`). They are routing and display. Instead, `FetchUsers` takes `isAuthenticated` as an argument.
- The redirect in the login page's effect and its input handlers (`setEmail`, `setPassword`, `showPassword`, demo credentials). These are plain setters and navigation.
- The list page's rule for showing the pagination bar (`src/pages/UserList.tsx:137`). It is display logic and is not part of this model.
- Overlapping requests and the order their replies arrive in. Each handler runs atomically. So the model does not show the stale lists that a delete's closure captured, or a late reply overwriting a newer one.
- Unicode. `IsSpace` covers only ASCII whitespace (space and the characters tab through carriage return), and lower-casing maps only `A`..`Z`. JavaScript's `trim`, `\S` and `toLowerCase` handle all of Unicode.
- `parseInt` on the route parameter. The edit page's `id` is taken as an already-parsed optional integer.
- `EditUser.EditUserPage.HandleChange`: `name` is one of the three input names. The source accepts any string and would add that key to the draft.
- The effect that re-runs `fetchUsers` when `isAuthenticated` changes. Only calls made by handlers are modelled, with the mount fetch being `FetchUsers` on `currentPage`.
- The mount effect of the session re-reads the slot. The model assumes the slot has not changed between the initial state and the effect.
