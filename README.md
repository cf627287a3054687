# Ne'ma client-side store, modelled in Dafny

This project models the mock backend of the Ne'ma (Ma'roof) food-donation web app.
The app keeps all of its "server" state in a Redux store on the client. The model covers:

- the four slices of that store:
  - **auth**: the logged-in user, a loading flag and an error message; points and a derived level.
  - **donations**: the listing table and two per-user views, the user's donations and the user's claims.
  - **activities**: the activity log, newest first.
  - **education**: resources with their `completedBy` lists, and the ids the current user has completed.
- the three compound transactions built from the slice actions:
  - login / register / update profile / logout (`src/lib/auth.context.tsx`);
  - donation submission (`src/pages/DonateFood.tsx`);
  - "mark resource as completed" (`src/pages/EducationResource.tsx`).
- two pure selections done inside page components:
  - the education catalogue filter (search plus tab);
  - the rewards affordability partition.

Each slice is a `class`. Its fields are the slice's fields: lists as `seq`, a missing value as `Option`.
Each reducer is a method. A reducer that changes its slice has a `modifies this` clause, and the empty `getUserActivities` reducer changes nothing. Each reducer's `ensures` gives the whole new state,
either directly or through a specification function, and the lemmas beside it prove the properties
of those functions. The transactions are methods over a `Store` that holds the four slice objects and
call the reducer methods in the source's order. The page selections are functions.

Modelling choices:

- Dates and points are integers.
- The ids built from `Date.now()`, and the current time itself, are parameters.
- Images, avatars, thumbnails and notifications are not modelled.
- JavaScript's `filter`, `map`, `findIndex` and `find` are `Seqs.Filter`, `Seqs.Map` and `Seqs.FindIndex`.
- The level is `points / 100 + 1`. Dafny's integer division by a positive divisor rounds down, exactly as `Math.floor` does, negative totals included.

Files: `Types.dfy` (records), `Seqs.dfy`, `Text.dfy` (array and string helpers), `AuthSlice.dfy`,
`DonationsSlice.dfy`, `ActivitiesSlice.dfy`, `EducationSlice.dfy`, `AppStore.dfy`, `AuthContext.dfy`,
`DonateFood.dfy`, `EducationResourcePage.dfy`, `EducationPage.dfy`, `RewardsPage.dfy`.

## Model

| member | source | states |
|---|---|---|
| `Seqs.Filter` | src/redux/slices/donationsSlice.ts:80 | `filter` keeps exactly the elements satisfying the test, each as many times as it occurs, drops the rest, and never lengthens the list |
| `Seqs.Map` | src/redux/slices/educationSlice.ts:111 | `map` keeps the length and transforms each position |
| `Seqs.FindIndex` | src/redux/slices/donationsSlice.ts:69 | `findIndex` returns the first matching index, or -1 exactly when nothing matches |
| `Text.Lower` | src/pages/Education.tsx:27 | `toLowerCase` keeps the length and lower-cases each letter A-Z |
| `Text.ContainsAt` | src/pages/Education.tsx:27-29 | `includes` holds exactly when the term occurs at some index |
| `AuthSlice.Level` | src/redux/slices/authSlice.ts:63-64 | level `l` satisfies `(l-1)*100 <= points < l*100` (floor of points/100, plus 1); at least 1 for non-negative points |
| `AuthSlice.LevelMonotone` | src/redux/slices/authSlice.ts:61-64 | gaining a non-negative number of points never lowers the level |
| `AuthSlice.AuthState.constructor` | src/redux/slices/authSlice.ts:11-15 | initial state: no user, not loading, no error |
| `AuthSlice.AuthState.LoginStart` | src/redux/slices/authSlice.ts:21-24 | loading on, error cleared, user untouched |
| `AuthSlice.AuthState.LoginSuccess` | src/redux/slices/authSlice.ts:25-29 | user is the payload, loading off, error cleared |
| `AuthSlice.AuthState.LoginFailure` | src/redux/slices/authSlice.ts:30-33 | loading off, error is the payload, user unchanged |
| `AuthSlice.AuthState.RegisterStart` | src/redux/slices/authSlice.ts:34-37 | loading on, error cleared, user untouched |
| `AuthSlice.AuthState.RegisterSuccess` | src/redux/slices/authSlice.ts:38-42 | user is the payload, loading off, error cleared |
| `AuthSlice.AuthState.RegisterFailure` | src/redux/slices/authSlice.ts:43-46 | loading off, error is the payload, user unchanged |
| `AuthSlice.AuthState.UpdateUserStart` | src/redux/slices/authSlice.ts:47-49 | loading on; the earlier error is kept, not cleared |
| `AuthSlice.AuthState.UpdateUserSuccess` | src/redux/slices/authSlice.ts:50-54 | user is the payload, loading off, error cleared |
| `AuthSlice.AuthState.UpdateUserFailure` | src/redux/slices/authSlice.ts:55-58 | loading off, error is the payload, user unchanged |
| `AuthSlice.AuthState.AddUserPoints` | src/redux/slices/authSlice.ts:59-66 | with a user, points rise by the amount and the level is recomputed by the formula; nothing else changes; with a consistent level and a non-negative amount the level does not drop; with no user nothing changes |
| `AuthSlice.AuthState.Logout` | src/redux/slices/authSlice.ts:67-71 | no user, not loading, no error |
| `DonationsSlice.FirstWithId` | src/redux/slices/donationsSlice.ts:69-70 | the first index carrying the id, or -1 exactly when the id is absent |
| `DonationsSlice.ReplaceFirst` | src/redux/slices/donationsSlice.ts:68-78 | length unchanged; the first entry with the payload's id becomes the payload and every other entry is unchanged; an absent id leaves the list unchanged |
| `DonationsSlice.WithoutId` | src/redux/slices/donationsSlice.ts:79-82 | exactly the entries with a different id remain |
| `DonationsSlice.DonatedBy` | src/redux/slices/donationsSlice.ts:93-96 | exactly the listings whose `userId` is the user |
| `DonationsSlice.ClaimedBy` | src/redux/slices/donationsSlice.ts:97-100 | exactly the listings whose `claimedBy` is the user |
| `DonationsSlice.ClaimFirst` | src/redux/slices/donationsSlice.ts:83-92 | the first listing with the id gets `isClaimed` and `claimedBy` = user and no other change; every other listing is unchanged; an absent id changes nothing |
| `DonationsSlice.ViewsKeepTableOrder` | src/redux/slices/donationsSlice.ts:79-100 | delete and both per-user views are order-preserving subsequences of the table |
| `DonationsSlice.ReplaceFirstIdempotent` | src/redux/slices/donationsSlice.ts:68-78 | updating twice with one payload equals updating once |
| `DonationsSlice.DeleteUndoesAdd` | src/redux/slices/donationsSlice.ts:64-82 | deleting the id of a just-added listing whose id was new restores the list |
| `DonationsSlice.AddKeepsDonatedView` | src/redux/slices/donationsSlice.ts:64-67 | adding the user's own listing keeps `userDonations` equal to the user's filter of the table |
| `DonationsSlice.DeleteKeepsDonatedView` | src/redux/slices/donationsSlice.ts:79-82 | deleting from both lists keeps `userDonations` equal to the user's filter of the table |
| `DonationsSlice.ClaimShowsInClaims` | src/redux/slices/donationsSlice.ts:83-100 | after a successful claim, refreshing the claims view lists the claimed listing |
| `DonationsSlice.DonationsState.constructor` | src/redux/slices/donationsSlice.ts:13-58 | a table of listings, empty views, idle, no error |
| `DonationsSlice.DonationsState.AddDonation` | src/redux/slices/donationsSlice.ts:64-67 | the listing is put at index 0 of the table and of `userDonations`, after which the old entries follow in order |
| `DonationsSlice.DonationsState.UpdateDonation` | src/redux/slices/donationsSlice.ts:68-78 | each list becomes `ReplaceFirst` of itself; claims untouched |
| `DonationsSlice.DonationsState.DeleteDonation` | src/redux/slices/donationsSlice.ts:79-82 | both lists lose every entry with the id |
| `DonationsSlice.DonationsState.ClaimDonation` | src/redux/slices/donationsSlice.ts:83-92 | table becomes `ClaimFirst`; the claimed copy is appended to `userClaims`; `userDonations` untouched; an absent id changes nothing |
| `DonationsSlice.DonationsState.SetUserDonations` | src/redux/slices/donationsSlice.ts:93-96 | `userDonations` becomes exactly the user's listings in table order |
| `DonationsSlice.DonationsState.SetUserClaims` | src/redux/slices/donationsSlice.ts:97-100 | `userClaims` becomes exactly the listings claimed by the user in table order |
| `ActivitiesSlice.AddingKeepsLogAsSuffix` | src/redux/slices/activitiesSlice.ts:62-64 | after k additions the log grows by k, the old log is its suffix in order, and the added entries come first, newest first |
| `ActivitiesSlice.ActivitiesState.constructor` | src/redux/slices/activitiesSlice.ts:11-56 | a given log, idle, no error |
| `ActivitiesSlice.ActivitiesState.AddActivity` | src/redux/slices/activitiesSlice.ts:62-64 | the log becomes `[a]` followed by the old log, one longer; flags unchanged |
| `ActivitiesSlice.ActivitiesState.GetUserActivities` | src/redux/slices/activitiesSlice.ts:65-68 | the whole state is unchanged |
| `EducationSlice.ResourceIndex` | src/redux/slices/educationSlice.ts:98 | the first resource with the id, or -1 exactly when the id is unknown |
| `EducationSlice.MarkKeepsShape` | src/redux/slices/educationSlice.ts:96-105 | marking keeps the number of resources and every field other than `completedBy`; resources other than the first with the id are untouched |
| `EducationSlice.MarkEffect` | src/redux/slices/educationSlice.ts:96-105 | when the guard holds, the user is appended to `completedBy`, and the id is appended to the completed ids if absent; an id already listed leaves that list unchanged; otherwise, including for an unknown id, nothing changes |
| `EducationSlice.MarkIdempotent` | src/redux/slices/educationSlice.ts:100 | repeating a mark with the same payload changes nothing |
| `EducationSlice.MarkKeepsNoDuplicates` | src/redux/slices/educationSlice.ts:102-104 | marking never puts a duplicate into the completed ids |
| `EducationSlice.CompletedIdsExact` | src/redux/slices/educationSlice.ts:107-112 | an id is listed exactly when some resource with that id has the user in `completedBy` |
| `EducationSlice.CompletedIdsInCatalogueOrder` | src/redux/slices/educationSlice.ts:109-111 | the listed ids keep catalogue order |
| `EducationSlice.CompletedIdsCover` | src/redux/slices/educationSlice.ts:107-112 | after `setUserCompletedResources`, every completion of the user is listed |
| `EducationSlice.MarkKeepsCovers` | src/redux/slices/educationSlice.ts:96-105 | a mark by any user keeps every user's completions listed if they were |
| `EducationSlice.MarkListsResource` | src/redux/slices/educationSlice.ts:100-104 | when completions are listed, marking a known resource leaves its id listed |
| `EducationSlice.EducationState.constructor` | src/redux/slices/educationSlice.ts:24-90 | a catalogue, no completed ids, idle, no error |
| `EducationSlice.EducationState.MarkResourceAsCompleted` | src/redux/slices/educationSlice.ts:96-106 | resources and completed ids become `MarkedResources` / `MarkedCompletions` of the old state |
| `EducationSlice.EducationState.SetUserCompletedResources` | src/redux/slices/educationSlice.ts:107-112 | completed ids become `CompletedIds`; resources untouched |
| `AppStore.Store.constructor` | src/redux/store.ts:16-21 | four fresh slices; no user; the given tables; empty per-user views; every slice idle with no error |
| `AuthContext.DemoUser` | src/lib/auth.context.tsx:42-50 | the demo user is "user-1" with 150 points, and the level stored for it agrees with the level formula |
| `AuthContext.OrDefault` | src/lib/auth.context.tsx:92-93 | `x \|\| fallback`: a present non-empty value is kept; an absent or empty one gives the fallback |
| `AuthContext.NewUser` | src/lib/auth.context.tsx:90-98 | the new user has the given id, 0 points and the level formula's level; a supplied non-empty name or email and a supplied type are kept, and an absent or empty one becomes "New User", "" or individual |
| `AuthContext.Merge` | src/lib/auth.context.tsx:144-147 | every supplied field is overwritten and every other field kept |
| `AuthContext.MergeLaws` | src/lib/auth.context.tsx:144-147 | an empty patch keeps the user; merging a patch twice equals merging it once |
| `AuthContext.Login` | src/lib/auth.context.tsx:34-80 | succeeds iff the demo email and password are given: then the demo user is logged in and the three per-user views are recomputed for "user-1"; otherwise the error is "Invalid email or password" and the user and views keep their prior values; the listing table, the catalogue and the other slices' loading flags and errors are kept |
| `AuthContext.Register` | src/lib/auth.context.tsx:83-130 | logs in `NewUser`, puts a 20-point "education" welcome activity first in the log, leaves points at 0 and recomputes the three views for the new id; the listing table, the catalogue and the other slices' loading flags and errors are kept |
| `AuthContext.UpdateUser` | src/lib/auth.context.tsx:133-163 | with no user, fails with "No user logged in" before any change; otherwise the user becomes `Merge` of the old user and the patch |
| `AuthContext.LogoutUser` | src/lib/auth.context.tsx:166-172 | no user, not loading, no error |
| `DonateFood.SchemaErrors` | src/pages/DonateFood.tsx:32-40 | no message exactly when title ≥ 3, description ≥ 10, category non-empty, location ≥ 3, quantity ≥ 1 and expiry after now; each of the six messages appears exactly when its rule fails |
| `DonateFood.NewDonation` | src/pages/DonateFood.tsx:86-98 | the listing belongs to the current user, is unclaimed and carries the form's fields |
| `DonateFood.DonationLog` | src/pages/DonateFood.tsx:103-110 | a "donation" activity of the current user worth 50 |
| `DonateFood.DonateFoodPage.constructor` | src/pages/DonateFood.tsx:64 | not submitting |
| `DonateFood.DonateFoodPage.OnSubmit` | src/pages/DonateFood.tsx:79-131 | no user: nothing changes; otherwise the listing is put first in both donation lists and a 50-point donation activity first in the log, and the points rise by exactly 50, which equals the activity's points, with the level recomputed; the user's other fields, the claims and every slice's loading flag and error stay as they were |
| `DonateFood.DonateFoodPage.HandleSubmit` | src/pages/DonateFood.tsx:143 | returns the schema's messages; a form failing the schema reaches no action; a valid one has exactly the effect of `OnSubmit`, including the no-user no-op |
| `EducationResourcePage.FindResource` | src/pages/EducationResource.tsx:25 | the found resource is the first in the catalogue with the id; none exactly when no resource has the id |
| `EducationResourcePage.CompletionLog` | src/pages/EducationResource.tsx:60-67 | an "education" activity of the user worth the resource's points |
| `EducationResourcePage.CompletedResourceIsBlocked` | src/pages/EducationResource.tsx:26-51 | when the completed ids cover the user's completions, a resource the user already completed cannot be completed again |
| `EducationResourcePage.EducationResourcePageState.constructor` | src/pages/EducationResource.tsx:16-22 | the page's resource id, not completing |
| `EducationResourcePage.EducationResourcePageState.HandleMarkAsCompleted` | src/pages/EducationResource.tsx:50-86 | no-op if no resource has the id, there is no user, the id is already listed, or a completion is in progress; otherwise it marks the resource and puts an education activity worth `resource.points` first in the log, and the points rise by exactly `resource.points` with the level recomputed; the user's other fields and every slice's loading flag and error stay as they were; if completions were listed, the id is now listed, so a second call is a no-op |
| `EducationPage.FilteredResources` | src/pages/Education.tsx:25-34 | exactly the resources matching the search and the tab; "all" gives exactly the search matches; "completed" only ids among the completed ids; any other tab only resources of that type |
| `EducationPage.FilteredKeepsOrder` | src/pages/Education.tsx:25 | the filtered list is an order-preserving subsequence of the catalogue |
| `EducationPage.EmptySearchMatchesAll` | src/pages/Education.tsx:26-29 | the empty search term matches every resource |
| `EducationPage.AllTabEmptySearchListsAll` | src/pages/Education.tsx:25-31 | the "all" tab with an empty term lists the whole catalogue |
| `EducationPage.SearchIgnoresTermCase` | src/pages/Education.tsx:26-29 | a term matches exactly when its lower-cased form does |
| `RewardsPage.AffordableRewards` | src/pages/Rewards.tsx:71 | exactly the rewards the user exists for and has at least `pointsCost` points for |
| `RewardsPage.UnaffordableRewards` | src/pages/Rewards.tsx:72 | exactly the remaining rewards |
| `RewardsPage.NoUserNothingAffordable` | src/pages/Rewards.tsx:71 | with no user nothing is affordable |
| `RewardsPage.RewardsPartition` | src/pages/Rewards.tsx:71-72 | the two lists together hold each reward exactly once, and each keeps the original order |
| `RewardsPage.DisplayIsPermutation` | src/pages/Rewards.tsx:115-123 | the cards shown are a permutation of the rewards with every affordable one before every unaffordable one |
| `RewardsPage.Shortfall` | src/pages/Rewards.tsx:208 | the "need n more points" figure is positive exactly when the card is unaffordable |
| `RewardsPage.CardAgreesWithList` | src/pages/Rewards.tsx:184-185 | for a logged-in user the card's affordability agrees with the list, and an unaffordable card shows a positive shortfall |

## Left out

- Rendering, routing, layout, theme handling and every notification are not modelled.
- The one-second delays, `navigate` and `Date.now()` are not modelled; ids and timestamps are parameters.
- The `catch` branches of login, register, update, donation submission and completion are not modelled. Nothing in the mock code they guard can throw.
- Persistence of the store in local storage (`src/redux/store.ts`) is not modelled.
- `Text.Lower`: lower-cases only the ASCII letters A-Z. `toLowerCase` also folds the case of other Unicode letters.
- `DonateFood.SchemaErrors`: measures text lengths in Unicode code points, Dafny's `char`. The validation library counts UTF-16 code units, so a title such as two emoji (4 units, 2 code points) passes the source's 3-character minimum but fails the model's.
- The date string of the donation form is not parsed. The expiry date and the current time are integer timestamps.
- `z.coerce.number` is not modelled. Quantity is an integer, so fractional and non-numeric entries are out of scope.
- The e-mail format checks live inside the validation library and are not modelled. So is the registration form's own schema.
- The registration form credits the 20 welcome points after `register` returns (src/components/auth/RegisterForm.tsx:81). That separate `addUserPoints(20)` is not modelled, and `AuthContext.Register` leaves points at 0, as the source does.
- `AuthContext.Merge`: a patch key that is present but set to `undefined` would overwrite the field with `undefined` in the source. The model treats such a key as absent.
- `getYoutubeVideoId`, `formatTimeAgo`, the percentage and impact figures, and the dashboard progress bar (which uses `level*100` as a threshold) are not modelled. The level follows the slice's formula.
- Static mock content (listings, activities, resources and rewards) is a constructor parameter, not a constant.
- Numbers are unbounded integers. JavaScript's floating-point `number` is not modelled.
