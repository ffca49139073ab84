# Voter registry admin: filters, pagination and validation in Dafny

This project models the query-and-pagination layer of an administrative web
interface for a registry of voters ("eleitores"), plus its two small rule
sets for authentication errors and login-form validation:

- `EleitoresService` (`eleitores_service.dfy`): the voter record and
  `searchEleitores`, which turns an optional-field filter object into the
  table-store's query. The store's fluent builder is modelled as a list of
  tagged constraints plus an ordering. `Satisfies` gives the list its meaning:
  a row is returned when it meets every constraint.
- `DashboardPage` (`dashboard_page.dfy`): converting the filter controls'
  strings into the service's filter object, and the server-paged list with
  Previous/Next. It also models the reload on a filter change, the local
  removal of a deleted row and the interaction counts. A `Dashboard` class
  holds the page state.
- `AdminUsersDashboard` (`admin_users_dashboard.dfy`): the in-memory
  five-condition filter over users, slice pagination ten per page, Prev/Next,
  the filter reset and the stat cards. A `Panel` class holds the page state.
- `AuthService` (`auth_service.dfy`): the `AuthError` value, the sign-in
  message-to-code mapping, and the rewrapping done by sign-in, sign-out and
  session lookup. Throwing is modelled as an `Outcome` that either resolves
  or rejects with an `AuthError`.
- `LoginPage` (`login_page.dfy`): the e-mail pattern `\S+@\S+\.\S+`
  (unanchored), the password length rule, the error map built by
  `validateForm`, and the error clearing in `handleChange`.
- Shared helpers: `Text` (case folding, substring search, the JavaScript `\s`
  class), `Seqs` (`filter`, `slice`, subsequences, distinct values), `Paging`
  (`Math.ceil` division, `min`, `max`) and `Wrappers` (`Option`).

The code pages by offset only (page number times page size). It has no
cursor-based pager, no classifier for the store's errors, and no layer that
checks ids before a create, update or delete.

`fetchEleitoresPage`, which the voter dashboard calls, is imported but
defined in no file of the repository, so it is not part of this model. The
dashboard's handlers take it as a parameter `respond: PageRequest ->
PageResponse`. A ghost log `requests` records every request they issue.

## Model

| member | source | states |
|---|---|---|
| `Seqs.Filter` | src/pages/AdminUsersDashboard.tsx:119-129 | `filter` keeps exactly the elements satisfying the predicate: every survivor satisfies it, and each element's multiplicity is its original one if it satisfies it and 0 otherwise; the result is never longer |
| `Seqs.FilterIsSubsequence` | src/pages/DashboardPage.tsx:69-71 | the filtered list is an order-preserving subsequence of the original |
| `Seqs.FilterKeepsAll` | src/pages/AdminUsersDashboard.tsx:120-128 | a predicate true of every element leaves the list unchanged |
| `Seqs.FilterComplement` | src/pages/DashboardPage.tsx:62-65 | filtering by a predicate and by its negation yields lengths that add up to the list's length |
| `Seqs.ImageSize` | src/pages/AdminUsersDashboard.tsx:219 | the number of distinct values of a list is at most its length, and 0 exactly for the empty list |
| `Paging.CeilDiv` | src/pages/AdminUsersDashboard.tsx:132 | `ceil(n/size)`: enough pages for `n` items, one fewer is not enough, and 0 pages exactly when `n` is 0 |
| `Text.Utf16Length` | src/pages/LoginPage.tsx:53 | `length` counts UTF-16 code units: at least the number of characters, at most twice it, and 0 only for the empty string |
| `Text.Utf16LengthOfBmp` | src/pages/LoginPage.tsx:53 | with no character above U+FFFF, `length` equals the number of characters |
| `EleitoresService.SearchEleitores` | src/services/eleitores.service.ts:83-119 | appends one constraint per set field, in the source's order; the rows meeting the result are exactly those `MatchesFilters` describes; the order is always `created_at` descending; with no filter set it is the same request as `fetchEleitores` (lines 31-36) |
| `EleitoresService.RequestedConstraintsMeaning` | src/services/eleitores.service.ts:91-118 | a row meets the built constraints iff it matches every set field: exact region, gender and religion, case-insensitive city substring, interaction equality, and the name/e-mail/CPF search |
| `EleitoresService.ClauseMeaning` | src/services/eleitores.service.ts:94-116 | what each `if` block's constraint demands of a row, and that an unset field demands nothing |
| `EleitoresService.SatisfiesConcat` | src/services/eleitores.service.ts:93-116 | the constraints of two appended lists hold iff those of each list hold (conjunction) |
| `EleitoresService.SatisfiesIgnoresOrder` | src/services/eleitores.service.ts:93-116 | two constraint lists holding the same constraints select the same rows, whatever the order of appending |
| `EleitoresService.SearchGroupMeaning` | src/services/eleitores.service.ts:114-116 | the `.or(...)` group holds iff the name or the e-mail contains the term ignoring case, or the CPF equals the term exactly |
| `EleitoresService.RequestedConstraintsCount` | src/services/eleitores.service.ts:91-118 | one constraint per set field and nothing else; an empty filter object yields no constraint at all, and only such a filter does |
| `EleitoresService.RegiaoOccurrences` | src/services/eleitores.service.ts:94-96 | a non-empty `regiao` adds exactly one equality constraint with its value; otherwise none is added |
| `EleitoresService.CidadeOccurrences` | src/services/eleitores.service.ts:98-100 | a non-empty `cidade` adds exactly one case-insensitive `%cidade%` constraint; otherwise none is added |
| `EleitoresService.GeneroOccurrences` | src/services/eleitores.service.ts:102-104 | a non-empty `genero` adds exactly one equality constraint with its value; otherwise none is added |
| `EleitoresService.ReligiaoOccurrences` | src/services/eleitores.service.ts:106-108 | a non-empty `religiao` adds exactly one equality constraint with its value; otherwise none is added |
| `EleitoresService.InteracaoOccurrences` | src/services/eleitores.service.ts:110-112 | a defined `interacao` adds exactly one equality constraint, so `false` still filters; undefined adds none |
| `EleitoresService.SearchOccurrences` | src/services/eleitores.service.ts:114-116 | a non-empty `search` adds exactly one OR-group over name, e-mail and CPF; otherwise none is added |
| `DashboardPage.BuildServiceFilters` | src/pages/DashboardPage.tsx:26-33 | each text control becomes undefined when '' and passes through unchanged otherwise; the interaction toggle maps '' to undefined, 'true' to `true` and any other string to `false` |
| `DashboardPage.BuildServiceFiltersSelects` | src/pages/DashboardPage.tsx:26-33 | for every toggle value ('', 'true', 'false'), the service filter built from the controls selects exactly the rows the controls describe |
| `DashboardPage.ClearedFiltersAddNoConstraint` | src/pages/DashboardPage.tsx:77-79 | cleared controls lead to a filter object with no field set and to an empty constraint list |
| `DashboardPage.Set` | src/pages/DashboardPage.tsx:73-75 | changing one control sets that control and leaves the other five as they were |
| `DashboardPage.DisplayedTotalPages` | src/pages/DashboardPage.tsx:361 | the displayed page count is at least 1, even for a count of 0, and is the least such count that covers every item |
| `DashboardPage.ComputeLoadedStats` | src/pages/DashboardPage.tsx:62-65 | total is the number of loaded rows; with and without interaction are the sizes of the two filters and add up to the total |
| `DashboardPage.WithoutId` | src/pages/DashboardPage.tsx:69-71 | deletion removes exactly the rows whose id equals the given id and keeps the rest in their original order; nothing changes when no row has that id |
| `DashboardPage.Dashboard.TotalPages` | src/pages/DashboardPage.tsx:364 | the Next handler's page count is at least 1 |
| `DashboardPage.Dashboard.constructor` | src/pages/DashboardPage.tsx:14-59 | the page starts with cleared controls on page 1, issues one request for page 1, and then shows that response (`ShowsFirstPage`): the error message and the store's message with no rows and a count of 0 if it failed, otherwise its rows and count; loading is over |
| `DashboardPage.Dashboard.LoadFirstPage` | src/pages/DashboardPage.tsx:37-56 | sets page 1 and requests page 1 with the current filters; on error it reports the fixed message plus the store's message and keeps rows and count; otherwise it shows the response's rows and count |
| `DashboardPage.Dashboard.ChangeFilter` | src/pages/DashboardPage.tsx:73-75 | sets the one control; when its value actually changed, the page reloads from page 1 (the effect at lines 36-59): one request for page 1 with the new controls, and then the state `LoadFirstPage` leaves for its response; otherwise nothing happens |
| `DashboardPage.Dashboard.ClearFilters` | src/pages/DashboardPage.tsx:77-79 | all six controls become ''; if any was set, the page reloads from page 1 and then shows that response as `LoadFirstPage` does; otherwise nothing happens |
| `DashboardPage.Dashboard.PreviousPage` | src/pages/DashboardPage.tsx:346-359 | does nothing while loading or on page 1; otherwise requests page `currentPage - 1`, shows that response, and the page stays at least 1 |
| `DashboardPage.Dashboard.NextPage` | src/pages/DashboardPage.tsx:363-377 | does nothing while loading or when `currentPage >= max(1, ceil(totalCount/pageSize))`; otherwise requests and shows page `currentPage + 1`, which never exceeds that count |
| `DashboardPage.Dashboard.EleitorDeleted` | src/pages/DashboardPage.tsx:69-71 | the loaded list becomes the list without the deleted id |
| `DashboardPage.Dashboard.Stats` | src/pages/DashboardPage.tsx:62-67 | the two interaction counts add up to the number of loaded rows |
| `AdminUsersDashboard.FilteredUsers` | src/pages/AdminUsersDashboard.tsx:118-130 | the result is an order-preserving subsequence of the users; a user is kept, with its multiplicity, iff all five conditions hold |
| `AdminUsersDashboard.ClearedFiltersKeepEveryone` | src/pages/AdminUsersDashboard.tsx:120-128 | with every control '' the filtered list equals the user list |
| `AdminUsersDashboard.InteracaoToggle` | src/pages/AdminUsersDashboard.tsx:121 | with the toggle at 'true' or 'false' a user passes iff the text form of its flag is the toggle value; any other non-empty value passes nobody |
| `AdminUsersDashboard.CpfFragmentFindsUser` | src/pages/AdminUsersDashboard.tsx:124-127 | the search finds a user whose CPF merely contains the typed text, case-sensitively |
| `AdminUsersDashboard.CpfSearchesDiffer` | src/pages/AdminUsersDashboard.tsx:124-127 | the panel's search and the service's search (src/services/eleitores.service.ts:115) disagree: typing '123' finds the user with CPF '123.456.789-00' in the panel, while the service does not return the voter with that CPF, name and e-mail |
| `AdminUsersDashboard.TotalPages` | src/pages/AdminUsersDashboard.tsx:132 | `ceil(n/10)` without clamping: it covers every item and is 0 exactly when nothing matches |
| `AdminUsersDashboard.PageWindow` | src/pages/AdminUsersDashboard.tsx:133-134 | from page 1 on, the page is `filtered[(p-1)*10 .. min(p*10, n))` (empty past the end); it has at most 10 users and is non-empty up to the last page |
| `AdminUsersDashboard.PreviousPage` | src/pages/AdminUsersDashboard.tsx:242 | `max(p-1, 1)`: one page back, never below 1 |
| `AdminUsersDashboard.NextPageAsWritten` | src/pages/AdminUsersDashboard.tsx:246 | `min(p+1, totalPages)`: one page on while below `totalPages`, and exactly `totalPages` otherwise, even when that is 0 |
| `AdminUsersDashboard.NextWithNoMatchesGoesToPageZero` | src/pages/AdminUsersDashboard.tsx:245-246 | with nothing matching, Next is enabled on page 1 and moves to page 0 |
| `AdminUsersDashboard.NextPage` | src/pages/AdminUsersDashboard.tsx:246 | corrected Next: one page on while below `totalPages`, and always within `[1, max(1, totalPages)]` |
| `AdminUsersDashboard.ComputeStats` | src/pages/AdminUsersDashboard.tsx:205-221 | the total is the filtered count; with and without interaction are the sizes of the two filters and add up to it; active regions is the number of distinct regions among the filtered users, at most the total and 0 exactly when it is 0 |
| `AdminUsersDashboard.Set` | src/pages/AdminUsersDashboard.tsx:136-139 | changing one control sets that control and leaves the other four as they were |
| `AdminUsersDashboard.Panel.Paginated` | src/pages/AdminUsersDashboard.tsx:133-134 | the users shown on the current page: at most ten, and some whenever anything matches |
| `AdminUsersDashboard.Panel.constructor` | src/pages/AdminUsersDashboard.tsx:33-43 | starts with cleared controls on page 1 |
| `AdminUsersDashboard.Panel.Previous` | src/pages/AdminUsersDashboard.tsx:242 | the page becomes `max(p-1, 1)`; the page stays within `[1, max(1, totalPages)]` |
| `AdminUsersDashboard.Panel.Next` | src/pages/AdminUsersDashboard.tsx:246 | the page becomes the corrected Next page; the page stays within `[1, max(1, totalPages)]` |
| `AdminUsersDashboard.Panel.ChangeFilter` | src/pages/AdminUsersDashboard.tsx:136-139 | sets the one control and goes back to page 1 |
| `AdminUsersDashboard.Panel.ClearFilters` | src/pages/AdminUsersDashboard.tsx:141-144 | all five controls become '' and the page 1; the filtered list is again the whole user list |
| `AuthService.NewAuthError` | src/services/auth.service.ts:9-13 | the error is named 'AuthError', keeps the message unchanged, and its code defaults to 'auth/unknown' |
| `AuthService.SignInCode` | src/services/auth.service.ts:24-34 | 'Invalid login credentials' wins over everything else; otherwise 'Email not confirmed', then 'rate limit'; anything else gives 'auth/unknown' |
| `AuthService.SignIn` | src/services/auth.service.ts:20-51 | resolves with `{data, error: null}` iff the provider returned no error; a provider error rejects with its own message and the mapped code; a caught `AuthError` is rethrown unchanged; any other failure gets 'auth/network-error' with the error's message or the fixed fallback |
| `AuthService.SignInCodes` | src/services/auth.service.ts:24-50 | unless an `AuthError` was caught, a failed sign-in carries one of five codes |
| `AuthService.InvalidCredentialsTakesPriority` | src/services/auth.service.ts:28-34 | every message containing both 'Invalid login credentials' and 'rate limit' maps to 'auth/invalid-credentials' |
| `AuthService.BothConditionsExample` | src/services/auth.service.ts:28-34 | the message 'Invalid login credentials; rate limit reached' contains both phrases and maps to 'auth/invalid-credentials' |
| `AuthService.Wrapped` | src/services/auth.service.ts:57-71 | every failure is rejected with the operation's code and the caught message (or the fallback text); success resolves with `error: null` |
| `AuthService.SignOut` | src/services/auth.service.ts:57-72 | rejects iff the provider returned an error or threw, always with 'auth/signout-failed' |
| `AuthService.GetSession` | src/services/auth.service.ts:78-93 | rejects iff the provider returned an error or threw, always with 'auth/session-error'; success carries the provider's data |
| `AuthService.RewrapOverridesCode` | src/services/auth.service.ts:66-70 | an `AuthError` caught by sign-out or session lookup loses its own code and keeps its message |
| `LoginPage.EmailPatternUnanchored` | src/pages/LoginPage.tsx:47 | the pattern is unanchored: text around a matching string does not stop the match |
| `LoginPage.EmailPatternNeeds` | src/pages/LoginPage.tsx:47 | a match needs at least five characters, with an '@' that has a '.' after it |
| `LoginPage.SampleAddressMatches` | src/pages/LoginPage.tsx:47 | an ordinary address such as 'maria@email.com' matches |
| `LoginPage.EmailError` | src/pages/LoginPage.tsx:45-49 | an empty e-mail gets the required message; a non-empty one that fails the pattern gets the invalid message; otherwise there is no error |
| `LoginPage.PasswordError` | src/pages/LoginPage.tsx:51-55 | an empty password gets the required message; a length of 1 to 5 UTF-16 code units gets the minimum-length message; 6 or more code units gets no error |
| `LoginPage.AstralPasswordAccepted` | src/pages/LoginPage.tsx:53 | three characters above U+FFFF are six code units, so such a password passes the length rule |
| `LoginPage.BmpPasswordRule` | src/pages/LoginPage.tsx:53 | for a password with no character above U+FFFF, the rule is a count of characters: no error iff at least 6 |
| `LoginPage.LoginForm.Validate` | src/pages/LoginPage.tsx:42-59 | the stored error map has at most one message per field, exactly the rule's message for each failing field; the result is true iff that map is empty |
| `LoginPage.LoginForm.HandleChange` | src/pages/LoginPage.tsx:27-40 | stores the typed value in the named field only; blanks that field's error to '' only when one was shown; the other entries are unchanged |

## Findings

| source | as written | input that shows it | evidently intended | confidence | as-written member | corrected member |
|---|---|---|---|---|---|---|
| src/pages/AdminUsersDashboard.tsx:246 | Next sets `Math.min(prev + 1, totalPages)` and is disabled only when `currentPage === totalPages` | no user matches the filters: `totalPages` is 0, the page is 1, so Next is enabled, and pressing it gives page 0 ("Página 0 de 0") | the page stays at 1 or more, in `[1, max(1, totalPages)]` | high; not executed | `AdminUsersDashboard.NextWithNoMatchesGoesToPageZero` | `AdminUsersDashboard.NextPage` |

The `Panel` class uses the corrected `NextPage`. `NextPageAsWritten` keeps
the code as written.

## Left out

- The table store and every round-trip to it: `fetchEleitores`,
  `fetchEleitorById`, `addEleitor`, `updateEleitor`, `deleteEleitor`. Only
  the request `fetchEleitores` builds is modelled (`AllEleitoresQuery`).
  What the store does with a request is not modelled, including the actual
  sorting by `created_at`. The ordering is recorded in the query, not applied.
- `fetchEleitoresPage` is not part of this model. Its page range and count
  semantics are unknown, so the dashboard takes its answer as a parameter.
- The authentication provider calls (`signInWithPassword`, `signOut`,
  `getSession`) are outside the model. Each operation takes what the call
  produced as its argument.
- `Text.Lower` folds only the ASCII letters A-Z. Full Unicode case mapping,
  SQL `ilike` collation, and `%`/`_` wildcards or commas inside filter
  values are not modelled; the search term is treated as plain text.
- Asynchrony and React scheduling: stale responses, interleaved handlers,
  effect timing and rendering. Each handler runs to completion. The
  `loading` guard is kept, but nothing here leaves `loading` set.
- `DashboardPage.Dashboard.PreviousPage`, `DashboardPage.Dashboard.NextPage`:
  the source ignores the `error` of the page response here and spreads
  `data`. The model shows the response's rows and count as they come and
  does not model what happens when `data` is null.
- `lastCreatedAt` and every date formatting, and the percentage rounding of
  the stat cards: date parsing and floating point.
- The simulated login submit (timer, alerts), the window-resize listener,
  the password visibility toggle, and all rendering components.
- `AuthService.SignOut`: `signOut` resolves with `{ error: null }` and no
  data. The model's reply carries the unit value `()` as its data.
- The panel's user list is a hard-coded array of sample users (lines 43-116
  of `src/pages/AdminUsersDashboard.tsx`). `Panel` takes any list as a
  constructor argument instead, so every result holds for that sample too.
