# UMKM Banjarbaru marketplace front-end — a Dafny model

This project models the logic of the UMKM Banjarbaru marketplace front-end. The original is a React single-page application in which local small businesses sell products. Every page talks to a hosted backend (authentication plus the `stores`, `products`, `profiles` and `user_roles` tables). The model covers what the pages themselves decide:

- **Authentication context.** `src/hooks/useAuth.tsx` is modelled as a fold of events over `{user, session, role, loading}`, with a class whose handlers are proved against the fold.
- **Seller pages.** The seller's store and product pages are modelled as form/mode state machines. Each writes to a table modelled as a map from row id to row.
- **Admin dashboard.** Covered: its counters, the verification button of each store, and the displayed role of each user.
- **Account pages.** The account and profile pages are modelled with their fallback chains, edit forms and profile upsert.
- **Sign-in/sign-up page.** Its handlers, password check and error texts are modelled.
- **Header and menu.** Covered: the header's search box and account slot, and the user menu.
- **Home carousel.** Its index arithmetic is modelled.
- **Search results page.** Its fetch state and row formatting are modelled.

Every backend call is an input to the model: a write's success or failure, the id of an inserted row, the rows a query returns. Clocks are inputs too. `encodeURIComponent` and number localisation are uninterpreted function parameters.

JavaScript's own semantics are written out in module `Js` where the pages depend on them:

- truthiness of `a || b` on strings;
- `trim` with the ECMAScript white-space set;
- `parseInt` with leading white space, sign and `0x` prefix;
- `toString` of integers;
- `includes`;
- `split(',')[0]`;
- `length` in UTF-16 code units;
- the remainder operator, which keeps the dividend's sign.

A role result that arrives after its user has signed out is still written (`src/hooks/useAuth.tsx:37-51`); `AuthContext.StaleLookupResurrectsRole` proves the state then has no user but a role.

## Model

| member | source | states |
|---|---|---|
| Js.TrimStartShape | src/components/Header.tsx:49 | the result is a suffix of the input, everything cut off is white space, and it does not start with white space |
| Js.TrimEnd | src/components/Header.tsx:49 | the result is a prefix of the input, everything cut off is white space, and it does not end with white space |
| Js.TrimOfTrimmed | src/components/Header.tsx:49 | a text with no white space at either end is its own trim |
| Js.TrimShape | src/components/Header.tsx:49 | a trimmed text has no white space at either end, and it is empty exactly when the input was all white space |
| Js.TrimIdempotent | src/components/Header.tsx:49-50 | trimming twice is trimming once |
| Js.DigitPrefixShape | src/pages/SellerProducts.tsx:85 | `parseInt` reads the longest run of digits: a prefix made of digits that stops only at a non-digit or at the end |
| Js.ParseUnsigned | src/pages/SellerProducts.tsx:85 | `parseInt` of an unsigned text yields a number only when the text holds a digit |
| Js.ParseInt | src/pages/SellerProducts.tsx:85 | `parseInt` yields a number only when the text holds a digit, otherwise NaN |
| Js.NatToString | src/pages/SellerProducts.tsx:163 | `toString` of a natural number is a non-empty string of decimal digits |
| Js.IntToString | src/pages/SellerProducts.tsx:163 | `toString` of an integer is never empty |
| Js.NatToStringValue | src/pages/SellerProducts.tsx:163 | the digits `toString` writes denote the number |
| Js.DigitPrefixOfDigits | src/pages/SellerProducts.tsx:85 | a text made only of digits is read to its end |
| Js.ParseUnsignedOfNatToString | src/pages/SellerProducts.tsx:85 | reading back the text of a natural number gives the number |
| Js.ParseIntOfToString | src/pages/SellerProducts.tsx:163 | `parseInt(n.toString()) \|\| 0` is `n` for every integer `n` |
| Js.BeforeFirst | src/pages/SearchResults.tsx:62 | `split(sep)[0]` is a prefix of the text without `sep`, ending at the first `sep` or at the end |
| Js.Utf16Length | src/pages/Auth.tsx:56 | `length` lies between the number of characters and twice that number |
| Js.Utf16LengthOfBmp | src/pages/Auth.tsx:56 | for characters of the Basic Multilingual Plane `length` is the number of characters |
| Js.JsRem | src/components/HeroSection.tsx:42 | for a non-negative dividend and positive divisor JavaScript's `%` is the mathematical remainder |
| Roles.ParseRoleName | src/hooks/useAuth.tsx:6 | a text read as a role is that role's stored name |
| Roles.ParseRoleNameOfRoleName | src/hooks/useAuth.tsx:6 | every role's stored name reads back as that role |
| Roles.RoleLabelInjective | src/pages/Account.tsx:84-95 | the four role labels (three roles and the unknown role) are pairwise distinct |
| Roles.RoleBadgeVariantInjective | src/pages/Account.tsx:97-108 | the four badge variants are pairwise distinct |
| AuthContext.ResolvedRole | src/hooks/useAuth.tsx:46-49 | a finished lookup yields `customer` exactly when no row was found, the query threw, or the row says `customer` |
| AuthContext.RemoveAt | src/hooks/useAuth.tsx:37-51 | a finished deferred lookup leaves the queue one shorter |
| AuthContext.RunAppend | src/hooks/useAuth.tsx:29-65 | folding events one more event at a time is the same as folding them all |
| AuthContext.LoadingStaysCleared | src/hooks/useAuth.tsx:56-64 | once `loading` is false no event sets it back to true |
| AuthContext.LoadingUntilSessionEvent | src/hooks/useAuth.tsx:25-64 | `loading` is still true exactly when it started true and no notification or `getSession` completion has arrived, so role completions never clear it |
| AuthContext.SessionFollowsLastSessionEvent | src/hooks/useAuth.tsx:32-63 | session and user are those of the last notification or `getSession` completion, the user being the session's user or null |
| AuthContext.SignInThenLookup | src/hooks/useAuth.tsx:32-51 | a sign-in from the initial state followed by its lookup ends signed in, not loading, with the resolved role |
| AuthContext.StaleLookupResurrectsRole | src/hooks/useAuth.tsx:37-53 | a lookup that finishes after a sign-out still writes its role, leaving no user but a role |
| AuthContext.SignOutIdempotent | src/hooks/useAuth.tsx:52-56 | a notification without a session clears user, session and role and ends loading; a second one changes nothing |
| AuthContext.UseAuth | src/hooks/useAuth.tsx:136-142 | `useAuth` returns the context inside a provider and raises the fixed error outside one |
| AuthContext.Settle | src/hooks/useAuth.tsx:84-87 | a call into the authentication client never throws to its caller: a thrown error becomes `{error}` |
| AuthContext.SignUp | src/hooks/useAuth.tsx:70-88 | sign-up sends email and password with the full name as metadata `full_name`, and reports an error exactly when the client did not return cleanly |
| AuthContext.SignIn | src/hooks/useAuth.tsx:90-103 | sign-in sends email and password, and reports an error exactly when the client did not return cleanly |
| AuthContext.LookupRole | src/hooks/useAuth.tsx:39-43 | the role query finds a row exactly for a user that has one, and returns that row's role |
| AuthContext.DefaultRoleIsCustomer | src/hooks/useAuth.tsx:46 | a user without a role row is treated as a customer |
| AuthContext.UpdateRole | src/hooks/useAuth.tsx:109-118 | `updateRole` upserts exactly `{user_id, role}`; on success only that user's entry changes, and on failure nothing does |
| AuthContext.UpdateRoleThenLookup | src/hooks/useAuth.tsx:109-118 | after a successful role update the next lookup for that user yields the new role |
| AuthContext.AuthProvider.constructor | src/hooks/useAuth.tsx:22-25 | the provider starts loading, with no user, session or role |
| AuthContext.AuthProvider.OnAuthStateChange | src/hooks/useAuth.tsx:29-58 | the listener sets session and user, ends loading, clears the role when there is no user, and otherwise queues a lookup and leaves the role alone |
| AuthContext.AuthProvider.OnInitialSession | src/hooks/useAuth.tsx:61-65 | the `getSession` completion sets session and user and ends loading, and never touches the role |
| AuthContext.AuthProvider.OnRoleLookupDone | src/hooks/useAuth.tsx:37-51 | the deferred lookup writes the resolved role unconditionally and touches nothing else |
| SellerProducts.NewProductRow | src/pages/SellerProducts.tsx:78-87 | the inserted row belongs to the current store and carries `parseInt(stock) \|\| 0` as its stock |
| SellerProducts.UpdatedProductRow | src/pages/SellerProducts.tsx:107-116 | an update rewrites every form column exactly as an insert would, and keeps the row's store |
| SellerProducts.UpdateWhereId | src/pages/SellerProducts.tsx:117 | an update filtered by id changes only that row, and no row appears or disappears |
| SellerProducts.EditForm | src/pages/SellerProducts.tsx:157-165 | the form filled from a product keeps its name and price, and its stock text reads back as the product's stock, or 0 when it had none |
| SellerProducts.StockText | src/pages/SellerProducts.tsx:163 | `stock?.toString() \|\| '0'` reads back as the stock, or 0 |
| SellerProducts.EditThenSaveKeepsRow | src/pages/SellerProducts.tsx:157-167 | opening a product and saving it untouched only fills its missing fields |
| SellerProducts.ProductsPage.constructor | src/pages/SellerProducts.tsx:18-27 | the page starts neither creating nor editing, with an empty form |
| SellerProducts.ProductsPage.FormTitle | src/pages/SellerProducts.tsx:226 | the title reads "Tambah Produk Baru" exactly while creating |
| SellerProducts.ProductsPage.ResetForm | src/pages/SellerProducts.tsx:63-72 | all six form fields become empty |
| SellerProducts.ProductsPage.StartCreating | src/pages/SellerProducts.tsx:204 | the "Tambah" buttons set only `isCreating` |
| SellerProducts.ProductsPage.CreateProduct | src/pages/SellerProducts.tsx:74-104 | nothing without a store id; on success the row is inserted under the store with the backend's fresh id, creating ends, the form resets and the list is refetched; on failure nothing changes |
| SellerProducts.ProductsPage.UpdateProduct | src/pages/SellerProducts.tsx:106-134 | on success only the row `productId` is rewritten, editing ends, the form resets and the list is refetched; on failure nothing changes |
| SellerProducts.ProductsPage.DeleteProduct | src/pages/SellerProducts.tsx:136-155 | on success exactly the row `productId` disappears; the form state is never touched |
| SellerProducts.ProductsPage.StartEditing | src/pages/SellerProducts.tsx:157-167 | the form holds the product and `editingId` its id |
| SellerProducts.ProductsPage.Save | src/pages/SellerProducts.tsx:293 | while `isCreating` is set, even with a product open for editing, save does what `createProduct` does; otherwise it does what `updateProduct` does for the product being edited. Both cover the outcome for the table, the form, both modes and the refetch, on success, on failure, and when no store id is present |
| SellerProducts.ProductsPage.Cancel | src/pages/SellerProducts.tsx:301-305 | cancel leaves both modes, resets the form and hides it |
| SellerStore.NewStoreRow | src/pages/SellerStore.tsx:46-54 | the inserted store is owned by the user, unverified, and reads back as the typed form |
| SellerStore.UpdatedStoreRow | src/pages/SellerStore.tsx:75-83 | an update changes the four form columns only, keeping owner and verification |
| SellerStore.EditThenSaveKeepsForm | src/pages/SellerStore.tsx:101-111 | saving the form that editing a store produced writes the same texts back and keeps the verification |
| SellerStore.VerificationBadge | src/pages/SellerStore.tsx:152-153 | the badge reads "Terverifikasi" exactly for a verified store |
| SellerStore.StatusText | src/pages/SellerStore.tsx:238-241 | the status line announces verification exactly for a verified store |
| SellerStore.UpdateStoreWhereId | src/pages/SellerStore.tsx:76-83 | an update filtered by id rewrites that row's four form columns only, and no row appears or disappears |
| SellerStore.StorePage.constructor | src/pages/SellerStore.tsx:18-24 | the page starts with the form closed and empty |
| SellerStore.StorePage.OneViewAtATime | src/pages/SellerStore.tsx:125-155 | the empty-store card shows iff no store and no form, the Edit button iff a store and no form, and never both |
| SellerStore.StorePage.SaveCaption | src/pages/SellerStore.tsx:206-210 | the save button reads "Update" exactly when a store exists |
| SellerStore.StorePage.OpenCreateForm | src/pages/SellerStore.tsx:134 | the "Buat Toko" button only opens the form |
| SellerStore.StorePage.CreateStore | src/pages/SellerStore.tsx:43-70 | nothing without a user id; on success the store is inserted under the backend's fresh id, owned by the user, the form closes and the store is refetched; on failure the form stays open |
| SellerStore.StorePage.UpdateStore | src/pages/SellerStore.tsx:72-99 | nothing without a store id; on success the table becomes the update filtered by `store.id`, the form closes and the store is refetched; on failure the form stays open |
| SellerStore.StorePage.StartEditing | src/pages/SellerStore.tsx:101-111 | the form is filled from the store with '' defaults when there is one, left alone otherwise, and always opened |
| SellerStore.StorePage.Save | src/pages/SellerStore.tsx:206 | with a store, save does exactly what `updateStore` does, including the early return without a store id; without one, it does exactly what `createStore` does. Both cover the table, the form and the refetch |
| SellerStore.StorePage.Cancel | src/pages/SellerStore.tsx:212 | cancel only closes the form and keeps what was typed |
| Admin.AttachOwner | src/pages/Admin.tsx:35-38 | a store whose owner has no profile gets `{full_name: 'N/A', email: 'N/A'}` |
| Admin.StoresWithProfiles | src/pages/Admin.tsx:27-40 | one listed store per store row, in order, each with its owner's profile or the 'N/A' profile |
| Admin.AttachRoles | src/pages/Admin.tsx:64-67 | a user without role rows gets `user_roles = []`; otherwise the role rows' names in order |
| Admin.WithVerified | src/pages/Admin.tsx:98-99 | the filter keeps exactly the stores with the given flag |
| Admin.LengthOrZero | src/pages/Admin.tsx:96-97 | a count is 0 before its list has loaded and the list's length after |
| Admin.FiltersPartition | src/pages/Admin.tsx:98-99 | verified and pending stores together are as many as all stores |
| Admin.CountsPartition | src/pages/Admin.tsx:96-99 | the verified and pending counters add up to the store counter, and all are 0 before loading |
| Admin.SetVerified | src/pages/Admin.tsx:76-79 | the update changes only the flag of the row `storeId` |
| Admin.SetVerifiedIdempotent | src/pages/Admin.tsx:76-79 | setting the flag twice is setting it once |
| Admin.AdminPanel.constructor | src/pages/Admin.tsx:16-44 | the dashboard starts from the given table, with no refetch |
| Admin.AdminPanel.VerifyStore | src/pages/Admin.tsx:75-94 | on success only the flag of `storeId` changes and the list is refetched; a failure changes nothing and refetches nothing |
| StoreManagement.Badge | src/components/admin/StoreManagement.tsx:39-41 | the badge reads "Terverifikasi" iff the store is verified, "Menunggu" iff not |
| StoreManagement.Buttons | src/components/admin/StoreManagement.tsx:49-68 | each store shows exactly one button, "Verifikasi" iff unverified, and it requests the opposite of the current flag |
| StoreManagement.OwnerFallbacksIndependent | src/components/admin/StoreManagement.tsx:45 | the owner's name and e-mail each fall back to 'N/A' on their own |
| StoreManagement.MissingOwnerShowsNA | src/components/admin/StoreManagement.tsx:45 | a store whose owner has no profile shows 'N/A' for both |
| StoreManagement.Entries | src/components/admin/StoreManagement.tsx:34 | one entry per store, in order |
| StoreManagement.ButtonFlipsFlag | src/components/admin/StoreManagement.tsx:49-68 | pressing a store's button and succeeding flips exactly that store's flag |
| UserManagement.DisplayedRole | src/components/admin/UserManagement.tsx:37-39 | the badge shows the first role row of a non-empty array, and 'customer' for an empty list or a non-array |
| UserManagement.LaterRolesIgnored | src/components/admin/UserManagement.tsx:38 | role rows after the first never change the display |
| UserManagement.DisplayedRoleOfListedUser | src/components/admin/UserManagement.tsx:37-39 | a listed user shows the name of its first role, or the default role `customer` when it has none |
| UserManagement.Entries | src/components/admin/UserManagement.tsx:31 | one entry per user, in order |
| AuthPage.BmpPasswordCheck | src/pages/Auth.tsx:56 | for ordinary characters the check refuses exactly the passwords shorter than six |
| AuthPage.LongPasswordsAccepted | src/pages/Auth.tsx:56 | a password of six or more characters always passes |
| AuthPage.SignInErrorText | src/pages/Auth.tsx:33 | a sign-in error shows its own message, or the default when it has none |
| AuthPage.SignUpErrorText | src/pages/Auth.tsx:70-81 | a message containing 'User already registered' maps to the fixed text; other errors show their message or the default |
| AuthPage.DuplicateSignUpMapped | src/pages/Auth.tsx:70-75 | any message with 'User already registered' inside it is replaced by the fixed text |
| AuthPage.IncludesMiddle | src/pages/Auth.tsx:70 | a text includes every text that sits inside it |
| AuthPage.AuthPageState.constructor | src/pages/Auth.tsx:14 | the page starts idle, on the sign-in tab |
| AuthPage.AuthPageState.SelectTab | src/pages/Auth.tsx:113-114 | a tab trigger selects its tab |
| AuthPage.AuthPageState.HandleSignIn | src/pages/Auth.tsx:19-45 | loading is set then cleared; an error shows its text and goes nowhere; success goes to '/' |
| AuthPage.AuthPageState.HandleSignUp | src/pages/Auth.tsx:47-94 | loading is set then cleared on every path; a short password never reaches sign-up; an error shows its mapped text; success switches to the sign-in tab without navigating |
| ProfileFields.ChainCases | src/pages/Account.tsx:76-79 | a fallback chain yields its fallback when every source is empty, and otherwise a non-empty text independent of the fallback |
| ProfileFields.ShowsPlaceholder | src/pages/Account.tsx:406-427 | a read-only field shows 'Belum diisi' exactly when every source is empty or the first non-empty one holds that text |
| ProfileFields.FillMatchesDisplay | src/pages/Account.tsx:74-82 | the edit form is pre-filled with what the read-only view showed, the placeholder becoming '' |
| ProfileFields.Upserted | src/pages/Account.tsx:47-56 | the upsert keyed by user id writes that user's row only, keeping a stored address when none is sent |
| Account.GetRoleLabel | src/pages/Account.tsx:84-95 | this copy of the role label agrees with the shared one |
| Account.GetRoleColor | src/pages/Account.tsx:97-108 | this copy of the badge variant agrees with the shared one |
| Account.RoleLinks | src/pages/Account.tsx:231-275 | seller links appear iff the role is seller, the admin link iff admin, never both |
| Account.SidebarName | src/pages/Account.tsx:169 | the sidebar shows the profile or metadata full name, else the e-mail as it is |
| Account.SavedProfileIsShown | src/pages/Account.tsx:47-56 | after a successful save the re-read profile shows what was typed, or the placeholder for an empty field |
| Account.AccountPage.constructor | src/pages/Account.tsx:18-25 | the page starts on the profile tab with the form closed and empty |
| Account.AccountPage.SelectTab | src/pages/Account.tsx:179-219 | a sidebar button selects its tab and nothing else |
| Account.AccountPage.StartEditing | src/pages/Account.tsx:74-82 | the form is filled from the fallback chains and opened |
| Account.AccountPage.UpdateProfile | src/pages/Account.tsx:44-72 | nothing without a user id; on success the form is upserted under the user's id, the form closes and the profile is refetched; on failure the form stays open |
| Account.AccountPage.Cancel | src/pages/Account.tsx:395 | cancel closes the form |
| Profile.GetRoleLabel | src/pages/Profile.tsx:79-90 | this copy of the role label agrees with the shared one |
| Profile.GetRoleColor | src/pages/Profile.tsx:92-103 | this copy of the badge variant agrees with the shared one |
| Profile.RoleCardLinks | src/pages/Profile.tsx:231-278 | the seller card appears iff the role is seller, the administrator card iff admin |
| Profile.SaveKeepsAddress | src/pages/Profile.tsx:44-52 | saving on this page never changes a stored address |
| Profile.ProfilePage.constructor | src/pages/Profile.tsx:17-22 | the page starts with the form closed and empty |
| Profile.ProfilePage.StartEditing | src/pages/Profile.tsx:70-77 | the form is filled from the fallback chains and opened |
| Profile.ProfilePage.UpdateProfile | src/pages/Profile.tsx:41-68 | nothing without a user id; on success name, e-mail and phone are upserted under the user's id and the form closes; on failure it stays open |
| Profile.ProfilePage.Cancel | src/pages/Profile.tsx:176 | cancel closes the form |
| UserMenu.GetRoleLabel | src/components/UserMenu.tsx:24-35 | this copy of the role label agrees with the shared one |
| UserMenu.GetRoleColor | src/components/UserMenu.tsx:37-48 | admin, seller, customer and the unknown role get red, blue, green and gray text |
| UserMenu.RoleColorInjective | src/components/UserMenu.tsx:37-48 | the four colours are pairwise distinct |
| UserMenu.DisplayName | src/components/UserMenu.tsx:62 | the menu shows the metadata full name, else the e-mail |
| UserMenu.MenuItems | src/components/UserMenu.tsx:71-105 | the admin item iff admin, the store and products items iff seller, and account, settings and sign-out always, last |
| UserMenu.HandleSignOut | src/components/UserMenu.tsx:19-22 | after sign-out the context has no user, session or role, and the page goes to '/' |
| HeroSection.NextIndex | src/components/HeroSection.tsx:42 | the next index stays among the three slides and wraps from the last to the first |
| HeroSection.PrevIndex | src/components/HeroSection.tsx:46 | the previous index stays among the three slides and wraps from the first to the last |
| HeroSection.PrevNextInverse | src/components/HeroSection.tsx:41-47 | back after forward, and forward after back, return to the same slide |
| HeroSection.ThreeNextsIdentity | src/components/HeroSection.tsx:42 | three steps forward return to the same slide |
| HeroSection.SlideClass | src/components/HeroSection.tsx:56 | a slide gets `translate-x-0` exactly when it is current |
| HeroSection.OneCurrentSlide | src/components/HeroSection.tsx:55-59 | exactly one slide is current, and only it sits at offset 0 |
| HeroSection.Carousel.constructor | src/components/HeroSection.tsx:7 | the carousel starts at slide 0 |
| HeroSection.Carousel.NextSlide | src/components/HeroSection.tsx:41-43 | the right arrow moves to the next index and stays in range |
| HeroSection.Carousel.Tick | src/components/HeroSection.tsx:34-36 | the timer moves to the next index and stays in range |
| HeroSection.Carousel.PrevSlide | src/components/HeroSection.tsx:45-47 | the left arrow moves to the previous index and stays in range |
| HeroSection.Carousel.SelectDot | src/components/HeroSection.tsx:108-114 | a dot selects its own slide |
| SearchResults.Location | src/pages/SearchResults.tsx:62 | the location is `split(',')[0]` of the address when that is non-empty, and 'Banjarbaru' when it is empty or there is no address |
| SearchResults.LeadingCommaShowsDefault | src/pages/SearchResults.tsx:62 | an address starting with a comma shows 'Banjarbaru' |
| SearchResults.CommaFreeAddressShownWhole | src/pages/SearchResults.tsx:62 | a non-empty address without a comma is shown whole |
| SearchResults.LocationIsFirstPart | src/pages/SearchResults.tsx:62 | an address with a non-empty first part shows exactly that part |
| SearchResults.BeforeFirstOfPrefix | src/pages/SearchResults.tsx:62 | the text before the first comma of `part,rest` is `part` |
| SearchResults.StoreName | src/pages/SearchResults.tsx:63 | the store is the joined store's name, or 'Toko UMKM' |
| SearchResults.FormatRow | src/pages/SearchResults.tsx:57-64 | a card keeps the row's id and name, has 10 reviews, and carries location and store with their defaults |
| SearchResults.FormatRows | src/pages/SearchResults.tsx:57 | one card per fetched row, in order |
| SearchResults.SearchPage.constructor | src/pages/SearchResults.tsx:28-31 | the page starts loading, without products or error, with the query `q \|\| ''` |
| SearchResults.SearchPage.OnQuery | src/pages/SearchResults.tsx:34-80 | an empty query ends loading with no products; otherwise a fetch starts loading with the error cleared |
| SearchResults.SearchPage.FetchSettled | src/pages/SearchResults.tsx:66-72 | rows replace the products; a failure sets the fixed error text and keeps the products; loading ends either way |
| SearchResults.EmptyQueryShowsNothingFound | src/pages/SearchResults.tsx:75-104 | a missing or empty query ends with the "nothing found" block |
| Header.SubmitTarget | src/components/Header.tsx:47-52 | a query empty after trimming goes nowhere; otherwise the target is `/search?q=` and the encoded trimmed query |
| Header.SubmitIgnoresSurroundingSpace | src/components/Header.tsx:49-50 | white space around the query never changes the target |
| Header.BlankQueryGoesNowhere | src/components/Header.tsx:49 | a query of white space only goes nowhere |
| Header.AccountSlotFor | src/components/Header.tsx:74-84 | the user menu shows iff there is a user; otherwise the login button leads to '/auth' |
| Header.HeaderState.constructor | src/components/Header.tsx:13 | the search box starts empty |
| Header.HeaderState.Input | src/components/Header.tsx:59 | typing replaces the query |
| Header.HeaderState.ClickLogo | src/components/Header.tsx:35 | the logo navigates to '/' |
| Header.HeaderState.Submit | src/components/Header.tsx:47-52 | submitting navigates to the encoded trimmed query, or nowhere when it is blank |

## Left out

- Backend I/O is left out:
  - the authentication client, and `select`/`insert`/`update`/`upsert`/`delete` themselves;
  - row-level policies and the `PGRST116` handling;
  - `.order(...)`, and the `.or(... ilike ...)` and `is_active` filters of the search.

  Each outcome, each inserted id and each list of rows is an input. Query results arrive in the order given.
- The `user_roles` table is modelled as one role per user, keyed by user id (`AuthContext.LookupRole`, `AuthContext.UpdateRole`). A new store's `is_verified` is taken as false, the column default.
- `AuthContext.UpdateRole` does not model any check of who may change a role. The code performs none, and the backend's policies are not part of this model.
- Real time is not modelled:
  - the `setTimeout(.., 0)` deferral, the five-second interval, and the race between `getSession` and the listener are discrete events that may come in any order;
  - the `Promise.all` fan-out of the admin lists is a plain map over the rows.
- The duplicate-key error of an insert is not modelled. `SellerProducts.ProductsPage.CreateProduct`, `SellerStore.StorePage.CreateStore` and both `Save` methods require the id the backend generates to be fresh.
- `AuthContext.AuthProvider.OnRoleLookupDone` requires the completion to belong to a queued lookup. The pure fold `AuthContext.Step` treats any other completion as a no-op.
- `UserMenu.HandleSignOut` models the remote sign-out by its effect on the context, a notification without a session, taken to arrive before the navigation.
- Toasts are display-only and are not modelled on the seller, admin and profile pages. They are recorded on the sign-in/sign-up page, where they are the page's whole answer.
- `SellerProducts.NewProductRow`: the price is kept as the typed text. `parseFloat`, the number's `toString` and `toLocaleString` are not modelled, and neither is the 4.5 rating of search results.
- `Js.ParseInt`: integers are unbounded. JavaScript's loss of precision above 2^53 is not modelled, and `-0` is read as 0; after `|| 0` both give the same stock.
- Dates are not modelled: `updated_at` is an input text, and the "joined since" date formatting is left out.
- `encodeURIComponent` and the number localisation of search results are uninterpreted function parameters.
- Navigation, `window.location`, the DOM click that switches the sign-up tab, and console logging are recorded as effects or left out.
- `ProtectedRoute`, which gates every page, is not part of this model, so no role gating of pages is modelled.
- Static parts are not modelled: the footer, the category section, the product grid, the admin layout and the index page. Also left out are the wishlist toggle of the product card, the mock orders and addresses of the account page, and the page layout and styling other than the role badge and colour mappings.
- `AuthPage.AuthPageState.HandleSignIn` and `AuthPage.AuthPageState.HandleSignUp` each run as one step. A second submission while one is in flight is not modelled; the submit buttons are disabled while loading.
