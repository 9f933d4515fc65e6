# Dashboard session and mock store, modelled in Dafny

This project models the three sequential pieces of a React user-management
dashboard:

- **The mock entity store** (`src/api/auth.js`): an in-memory table of
  accounts seeded with an admin and a regular user, read-only per-account
  lists of studies and addresses, and the five operations the file exports:
  `login`, `getUsers`, `getUserStudies`, `getUserAddresses` and
  `createUser`. It is the class `MockApi.UserStore`, with a `seq<User>`
  field and two maps. `createUser` is a method that appends. The other four
  are functions that read the store.
- **The session holder** (`src/context/AuthContext.jsx`): the four-field
  auth state, three session-storage slots, and three transitions: the
  mount-time restore, `login` and `logout`. Storage is the class
  `Session.SessionStorage` over a `map<string, string>`. The provider is
  the class `Session.AuthProvider<U>`, which is given an encode/decode pair
  standing for `JSON.stringify`/`JSON.parse`.
- **The route guard and route table** (`src/routes/AppRouter.jsx`): pure
  functions from (signed in, role, path) to either the screens rendered or
  a redirect target.

`Decimal` renders integer ids of magnitude below 10^21 the way `'mock-token-' + id`
does, and also gives a parser for reading them back. This shows that a token identifies
its account.

`createUser` returns the stored record with password `'defaultPassword'`
included (src/api/auth.js:94-100); `login` and `getUsers` leave the
password out.

## Model

| member | source | states |
|---|---|---|
| `MockApi.UserStore.constructor` | src/api/auth.js:2-37 | the store starts with the two seeded accounts and the seeded study and address maps, and its ids sit at their positions |
| `MockApi.FindFirst` | src/api/auth.js:43 | `find` returns None iff no account matches both email and password; otherwise it returns the index of a matching account with no match before it |
| `MockApi.UserStore.Login` | src/api/auth.js:40-60 | succeeds iff some account matches email and password exactly; on success it uses the first match in table order, with token `'mock-token-' + id`, identity id/name/email (no password) and that account's role; otherwise the message is `'Invalid email or password'` |
| `MockApi.Token` | src/api/auth.js:48 | a token is `'mock-token-'` followed by something non-empty |
| `MockApi.TokenCarriesId` | src/api/auth.js:48 | the account id can be read back from its token, so distinct ids give distinct tokens |
| `Decimal.NatToString` | src/api/auth.js:48 | a natural number renders as a non-empty string of digits, with no leading zero unless it is 0 |
| `Decimal.ParseIntToString` | src/api/auth.js:48 | parsing the decimal rendering of any integer returns that integer |
| `Decimal.IntToStringInjective` | src/api/auth.js:48 | distinct integers render as distinct strings |
| `MockApi.SeedLogins` | src/api/auth.js:2-17 | both seeded accounts log in with `password123` and get tokens `mock-token-1` and `mock-token-2` with their roles; a wrong password fails |
| `MockApi.Roster` | src/api/auth.js:65-70 | the projection has one entry per account, in order, each holding that account's id, name, email and role |
| `MockApi.UserStore.GetUsers` | src/api/auth.js:62-73 | `getUsers` lists every account in table order with exactly id/name/email/role; the entry type has no password |
| `MockApi.LoginAgreesWithRoster` | src/api/auth.js:43-70 | the identity and role a successful login returns match an entry of `getUsers` |
| `MockApi.UserStore.GetUserStudies` | src/api/auth.js:75-81 | returns the stored study list for the id, or `[]` when there is none; it reads only |
| `MockApi.UserStore.GetUserAddresses` | src/api/auth.js:83-89 | returns the stored address list for the id, or `[]` when there is none; it reads only |
| `MockApi.NewRecord` | src/api/auth.js:94-98 | the new record's password is always `'defaultPassword'`; its id is the caller's id when one is given, else the previous length + 1; name, email and role come from the caller |
| `MockApi.UserStore.CreateUser` | src/api/auth.js:91-103 | appends exactly that record and returns it, leaving earlier records and both maps unchanged; with an id-free input it keeps ids at their positions, and the new id gets `[]` from both lookups; afterwards its email logs in with the default password |
| `MockApi.FindFirstAppend` | src/api/auth.js:99 | after an append, the first match is unchanged if one existed; otherwise the new record matches at the end or nothing does |
| `MockApi.PositionalIdsDistinct` | src/api/auth.js:95 | when ids equal position + 1, no two accounts share an id |
| `Session.InitialState` | src/context/AuthContext.jsx:7-12 | token, user and role are all null and `isAuthenticated` is false |
| `Session.AuthProvider.constructor` | src/context/AuthContext.jsx:7-12 | a provider starts in the initial state over the given storage |
| `Session.SessionStorage.GetItem` | src/context/AuthContext.jsx:16-18 | `getItem` returns the slot's value, or null when the slot is absent |
| `Session.SessionStorage.SetItem` | src/context/AuthContext.jsx:31-33 | `setItem` overwrites one slot and no other |
| `Session.SessionStorage.RemoveItem` | src/context/AuthContext.jsx:46-48 | `removeItem` deletes one slot and no other |
| `Session.Restore` | src/context/AuthContext.jsx:15-28 | when token, user and role are all present and non-empty, it gives the authenticated state built from them with the user decoded, or a parse fault if decoding fails; otherwise the state is kept |
| `Session.AuthProvider.RestoreOnMount` | src/context/AuthContext.jsx:15-28 | the mount effect leaves the provider in the state `Restore` describes, or unchanged when parsing faults |
| `Session.LoginSlots` | src/context/AuthContext.jsx:31-33 | after login the three slots hold token, encoded user and role, and every other slot is unchanged |
| `Session.AuthProvider.Login` | src/context/AuthContext.jsx:30-43 | writes the three slots, sets the state to the given token/user/role with `isAuthenticated` true, and navigates to `/dashboard` |
| `Session.LogoutSlots` | src/context/AuthContext.jsx:46-48 | after logout the three slots are gone and every other slot is unchanged |
| `Session.AuthProvider.Logout` | src/context/AuthContext.jsx:45-58 | removes exactly the three slots, resets the state to the initial one, and navigates to `/login` |
| `Session.LoginThenRestore` | src/context/AuthContext.jsx:16-40 | if decode undoes encode, a restore after login with a non-empty token and role gives back the same token, user and role, authenticated |
| `Session.EmptyTokenNotRestored` | src/context/AuthContext.jsx:20 | a login with an empty token or role is not restored by a reload |
| `Session.LogoutThenRestore` | src/context/AuthContext.jsx:15-55 | after logout a restore keeps whatever state it starts from, so a fresh provider stays unauthenticated |
| `Session.ReloadAfterLogin` | src/context/AuthContext.jsx:15-43 | a second provider over the same storage comes up with the first provider's login |
| `Session.ReloadAfterLogout` | src/context/AuthContext.jsx:15-58 | a second provider over storage that has been logged out comes up in the initial state |
| `Router.PrivateRoute` | src/routes/AppRouter.jsx:13-25 | renders iff the caller is authenticated and either `roles` is absent or it includes the role; a redirect goes to `/login` when unauthenticated, otherwise to `/dashboard` |
| `Router.Route` | src/routes/AppRouter.jsx:30-49 | `/login` always renders the login screen; every redirect goes to `/login` or `/dashboard` |
| `Router.UnauthenticatedToLogin` | src/routes/AppRouter.jsx:33-45 | an unauthenticated caller on any dashboard path is sent to `/login` |
| `Router.UsersAdminOnly` | src/routes/AppRouter.jsx:39-43 | `/dashboard/users` renders (dashboard then users screen) iff the caller is an authenticated admin; an authenticated non-admin is sent to `/dashboard` |
| `Router.MemberPagesAnyRole` | src/routes/AppRouter.jsx:33-45 | for every authenticated role, `/dashboard` renders the dashboard with the profile, `/dashboard/studies` with the studies screen and `/dashboard/addresses` with the addresses screen |
| `Router.UnknownPathToDashboard` | src/routes/AppRouter.jsx:48 | any path not in the table is sent to `/dashboard`, whether or not the caller is authenticated |
| `Router.RedirectsSettle` | src/routes/AppRouter.jsx:13-48 | following redirects reaches a rendered screen within two hops, so there is no redirect loop |

## Left out

- The 500 ms `setTimeout` and the promise around every operation of `src/api/auth.js`: the operations are synchronous here.
- The screens call `authAPI.updateUser`, `deleteUser`, `addStudy`, `updateStudy`, `deleteStudy`, `addAddress`, `updateAddress` and `deleteAddress`, which `src/api/auth.js` does not define, so they are not part of this model. The file also has no reset and no persistence: the table lives in memory and is reseeded when the page loads.
- JavaScript's dynamic typing in `createUser`: the model's input always has name, email and role, and an optional integer id and password. Extra fields that a spread would copy, missing fields, and non-integer ids are not modelled.
- Id width: ids are unbounded integers here. JavaScript ids are doubles, so integers beyond 2^53 collapse, ids of magnitude 10^21 or more render in exponent form (`mock-token-1e+21`, `mock-token--1e+21`), and `-0` renders as `0`; `MockApi.TokenCarriesId` and `Decimal.IntToStringInjective` hold for the unbounded integers only.
- Aliasing: `getUserStudies`, `getUserAddresses` and `createUser` return live references into the store, so a caller could mutate the store through them. The model returns values.
- Object keys: the JavaScript maps have string keys, and a numeric id is coerced to its string. The model keys the maps by integer ids.
- `JSON.stringify`/`JSON.parse`: these are an abstract encode/decode pair. The round-trip lemmas assume decode undoes encode and encode never gives the empty string. Values that `JSON.stringify` cannot round-trip, such as `undefined` or functions, fall outside that assumption.
- `navigate`: the target path is returned instead of followed. React's rendering, effects scheduling and context plumbing (`useState`, `useEffect`, `useAuth`) are not modelled. The first render of a reloaded page is unauthenticated (src/context/AuthContext.jsx:7-12), so on a protected path `PrivateRoute` first redirects to `/login` (src/routes/AppRouter.jsx:16-18) before the restore effect runs; `Session.ReloadAfterLogin` speaks only of the provider's state after that effect, not of the page the reload lands on.
- Route matching by react-router: the model compares paths exactly. Case-insensitive matching, trailing-slash normalisation and query strings are not modelled. `Suspense` and `lazy` loading are not modelled either.
- Screens (`src/pages/...`), form dialogs (`src/components/dashboard/...`), layout and theming: these are UI that calls the operations above. Their yup validation, wall-clock year bound and `Math.random` ids are library behaviour or nondeterminism.
