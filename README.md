# TO-LET: a Dafny model of the rental-listing front end

TO-LET is a single-page React application in which property owners (role
`TENANT`) list rooms, hostels and apartments, and seekers browse, wishlist and
send enquiries. Its logic lives in several places:

- a data-access layer, `services/api.ts`, over a hosted backend with auth and four tables;
- a session/navigation state machine, `App.tsx`;
- the page components' validators, wizards and derived values.

This project models that logic in Dafny and proves what it promises.

- **Backend** (`api.dfy`, module `Api`). The hosted backend is the class `Api.Store`. It holds auth identities, the `users`, `properties`, `wishlist` and `requests` tables, the signed-in user, an id counter and a clock. Each `api.*` operation is a method of it.
  - Each method has the source's branches: not configured, and not signed in where the source checks it. A `fault` argument says whether the backend's query or insert answers with an error. For `SignUp` and `Login`, `readFault` says whether the closing `getCurrentUser()` read fails; the sign-in and sign-up calls themselves have no error beyond the credential cases (see Left out).
  - `Store.Valid()` is the invariant every method keeps:
    - users are keyed by id;
    - the session and every identity have a profile row;
    - property and request rows are in creation order;
    - wishlist row ids are unique, and there is at most one row per (user, property) pair.
  - The row mappers, the partial profile update, the property query, the wishlist toggle and the request visibility rule are functions, each with lemmas.
- **Configuration** (`supabase.dfy`, `SupabaseConfig`). The environment lookup is `GetEnv`: a loop over the key variants, proved equal to the search function `EnvLookup`. The configured predicate is `IsSupabaseConfigured`.
- **Constants** (`constants.dfy`, `Constants`):
  - the phone pattern, as an anchored fixed-count matcher proved equal to "ten ASCII digits, the first 6-9";
  - the two seed listings.
- **Navigation** (`app.dfy`, `Navigation`). The class `App` has the fields `user`, `currentPage`, `selectedPropertyId` and `loading`, and the handlers of `App.tsx`. `RenderPage` is the page dispatch. `Gate` is the onboarding rule: complete the profile first, then choose a role.
- **Pages**:
  - `search.dfy`: the search filter and the search page's filter state.
  - `profile.dfy`: the profile form.
  - `add_property.dfy`: the listing wizard.
  - `auth.dfy`: the sign-in form.
  - `landing.dfy`: the landing page's featured slice and "list property" routing.
  - `property_details.dfy`: lookup, fallbacks and handlers.
  - `dashboard.dfy`: the dashboard's derived values.
- **Shared**:
  - `seqs.dfy` holds `filter`, `slice`, reversal and subsequence, with their lemmas.
  - `types.dfy` holds the entities of `types.ts`.
  - `ids.dfy` holds the row identifiers the backend issues. They are modelled as a prefix plus a decimal counter, and proved injective.

Inputs that the application takes from outside become parameters:

- The environment variables are an `EnvSources` value with three optional tables.
- The backend's failures are `fault` flags.
- The great-circle distance is a function parameter `Distance`.
- The `window.confirm` answer is a boolean.
- The time the seed was loaded is `seedTime`.
- Auth notifications are an `AuthEvent` value.

Timestamps are opaque ordered integers. The backend's clock is a counter that advances on every property or request insert.

## Model

| member | source | states |
|---|---|---|
| Api.MapPropertyRoundTrip | services/api.ts:7-19 | mapProperty is a field-for-field rename: storing a property and mapping it back gives it unchanged; coordinates come from latitude/longitude; a NULL `images` column maps to `[]` |
| Api.MapUserRoundTrip | services/api.ts:21-32 | mapUser is a field-for-field rename in both directions; NULL profile columns stay absent |
| Api.Store.constructor | services/supabase.ts:39-43 | the store starts configured exactly when the environment gives a real URL and key, with empty tables and nobody signed in |
| Api.Store.GetCurrentUser | services/api.ts:36-53 | a user is returned exactly when configured, signed in and the profile query succeeds; it is the session's own row, mapped |
| Api.Store.SignUp | services/api.ts:72-94 | not configured and an already registered email are errors; otherwise a fresh identity with the given (or default) password is created and signed in, and its profile row has role NONE and profile_complete false; the other tables are untouched; the closing current-user read gives that profile, or null when the read fails |
| Api.Store.Login | services/api.ts:55-70 | not configured gives null; correct credentials sign the identity in and return its profile, or null when the closing profile read fails; any sign-in error falls back to sign-up, so an unknown email is registered and a wrong password is an auth error |
| Api.ApplyPatchWritesExactly | services/api.ts:102-110 | the update writes exactly the columns whose field is defined, each with the given value, and leaves id, email and every other column as they were |
| Api.ApplyPatchIdempotent | services/api.ts:102-110 | an update with no defined field changes nothing; applying the same update twice equals applying it once |
| Api.Store.UpdateProfile | services/api.ts:96-121 | not configured and signed out are distinct errors; on success only the signed-in user's row changes, to the patched row, which is returned; on any failure no row changes |
| Api.Store.Logout | services/api.ts:123-127 | afterwards nobody is signed in |
| Api.QueryMembership | services/api.ts:136-149 | a listing is returned exactly when its row passes every filter that was given |
| Api.QueryNewestFirst | services/api.ts:136 | over a table in creation order, the query answers newest first |
| Api.PriceBoundsInclusive | services/api.ts:140-141 | a rent equal to the minimum or the maximum is kept (`gte`/`lte`) |
| Api.EmptyQuerySelectsAll | services/api.ts:138-142 | an empty type and zero prices are falsy and restrict nothing, exactly as no filters; the unfiltered answer is the whole table newest first |
| Api.SeedRoomQuery | services/api.ts:139-141 | with the two seed listings as rows, type ROOM and prices 5000-9000 select exactly `p1` |
| Api.Store.GetProperties | services/api.ts:130-150 | not configured, or a failing query, gives the seed list unfiltered; otherwise the admitted rows, mapped and newest first |
| Api.Store.AddProperty | services/api.ts:152-174 | not configured and a failing insert are errors and store nothing; otherwise exactly one row is appended, unverified, with the current time and an id no existing listing carries, carrying the submitted fields, and it is returned mapped |
| Api.FindWish | services/api.ts:182-187 | the lookup returns a row of the user for the property when there is one, and none only when the table has no such pair |
| Api.ToggleFlips | services/api.ts:189-195 | one toggle removes the (user, property) pair if present and adds it otherwise, leaving every other pair, and keeps row ids and pairs unique |
| Api.ToggleTwice | services/api.ts:177-196 | two toggles of the same pair give back the pairs the table started with |
| Api.Store.ToggleWishlist | services/api.ts:177-196 | not configured or signed out answers false and changes nothing; otherwise the answer is the pair's new membership (true when it was absent) and the table is toggled; with a failing backend the answer is true and the table unchanged |
| Api.WishlistOfMembership | services/api.ts:203-217 | a property is on the wishlist exactly when a wishlist row pairs the user with its id |
| Api.NoRowsNoWishlist | services/api.ts:208 | the early return for a user with no rows agrees with the query it skips |
| Api.Store.GetWishlist | services/api.ts:198-218 | not configured, signed out or a failing query give []; otherwise the properties the user's rows name |
| Api.Store.SendRequest | services/api.ts:221-240 | not configured and signed out are errors; otherwise one request with status 'new', the given property, owner and message, and the signed-in user as seeker, is appended with an id no existing request carries, and returned |
| Api.RequestsOfMembership | services/api.ts:247-251 | a request is visible exactly when the user is its owner or its seeker |
| Api.RequestsOfNewestFirst | services/api.ts:251 | visible requests come newest first |
| Api.UninvolvedSeesNone | services/api.ts:250 | a user who is neither owner nor seeker of any request sees none |
| Api.Store.GetRequests | services/api.ts:242-255 | not configured, signed out or a failing query give []; otherwise the visible requests newest first |
| SupabaseConfig.GetEnv | services/supabase.ts:5-26 | the loop returns what `EnvLookup` specifies: the first truthy value over the names in order, each tried in import.meta.env, process.env, window._env_ |
| SupabaseConfig.FirstFoundSource | services/supabase.ts:9-24 | a value found is held by some source under one of the names tried |
| SupabaseConfig.FirstFoundEmpty | services/supabase.ts:25 | `''` comes back exactly when no source holds any of the names |
| SupabaseConfig.NameBeforeVariant | services/supabase.ts:7-9 | the name as given beats its VITE_-less variant |
| SupabaseConfig.SourceOrder | services/supabase.ts:12-22 | import.meta.env beats process.env, which beats window._env_ |
| SupabaseConfig.ViteVariant | services/supabase.ts:28-29 | the names tried are VITE_SUPABASE_URL then SUPABASE_URL, and VITE_SUPABASE_ANON_KEY then SUPABASE_ANON_KEY |
| SupabaseConfig.IndexFrom | services/supabase.ts:43 | the search for `includes` finds the first occurrence, and none only when there is none |
| SupabaseConfig.IncludesMeaning | services/supabase.ts:43 | `includes` holds exactly when the pattern occurs somewhere |
| SupabaseConfig.ConfiguredMeaning | services/supabase.ts:39-43 | configured exactly when URL and key are non-empty, the URL is not the placeholder, and it nowhere contains `xxxxxxxxxxxx` |
| SupabaseConfig.NoUrlNotConfigured | services/supabase.ts:39-40 | with no URL under either name in any source, the backend is not configured |
| SupabaseConfig.PlaceholderExamples | services/supabase.ts:40-43 | the placeholder URL, a template URL and a missing key are each not configured |
| Constants.PhonePatternMeaning | constants.ts:6 | `^[6-9]\d{9}$` matches exactly the ten-character all-ASCII-digit strings whose first digit is 6-9 |
| Constants.TestPhone | constants.ts:6 | the regex test accepts exactly those strings |
| Constants.PhoneExamples | constants.ts:6 | a valid number is accepted; a 0-5 first digit, nine or eleven digits, and a `+91` prefix are rejected |
| Constants.SeedContents | constants.ts:8-35 | the seed is exactly `p1`, a verified ROOM at 8500, and `p2`, an unverified HOSTEL_PG at 6500, both owned by `u2` |
| Navigation.App.constructor | App.tsx:18-21 | the application starts on 'landing' with no user, nothing selected and loading |
| Navigation.RenderPageDispatch | App.tsx:73-106 | while loading the spinner shows whatever the page; each routed name shows its view, the details view showing the selected id; any other name shows the landing view |
| Navigation.Gate | App.tsx:29-34 | gating leaves the page or sends it to 'profile' or 'role-selection', nowhere else |
| Navigation.GateOnboarding | App.tsx:29-34 | an incomplete profile goes to 'profile' before a missing role goes to 'role-selection'; an onboarded user or no user keeps the page; gating is idempotent |
| Navigation.App.CheckUser | App.tsx:25-37 | the user becomes the store's current user (none when not configured or the read fails), the page is gated, and loading ends in every case |
| Navigation.App.OnAuthEvent | App.tsx:42-52 | sign-in re-reads and gates like the initial check; sign-out clears the user and shows 'landing'; other notifications change nothing |
| Navigation.App.Logout | App.tsx:62-66 | the backend session ends, the user is cleared and the page is 'landing' |
| Navigation.App.NavigateToProperty | App.tsx:68-71 | the property is selected and 'property-details' shown; user and loading are untouched |
| Navigation.App.Navigate | App.tsx:82 | `onNavigate` sets the page to the name given |
| Navigation.App.ProfileCompleted | App.tsx:88-93 | the user is re-read; the page is 'role-selection' for a role-less user and 'landing' otherwise, a missing user included |
| Navigation.App.RoleSelectionCompleted | App.tsx:86 | the page becomes 'landing' |
| Navigation.App.AddPropertyCompleted | App.tsx:99 | the page becomes 'dashboard' |
| Navigation.App.HandleLoginAsWritten | App.tsx:57-60 | the sign-in form's callback changes nothing |
| Navigation.LoginDiscrepancy | App.tsx:57-60 | on a configured backend, a visitor who opens the sign-in form and submits it with an unknown email stays signed out on the sign-in form under the written handler, while the corrected one reaches the profile form |
| Navigation.App.HandleLogin | App.tsx:57-60 | corrected handler: the page is always the onboarding gate of the old page for the user read back; correct credentials sign that identity in (even when the read then fails) and show its profile; an unknown email is registered (a new identity with that password, its NONE/incomplete profile row, and signed in) and, when the read succeeds, sent to 'profile'; a failing profile read or an unconfigured backend leaves the user null and the page as it was |
| Search.SearchPage.constructor | pages/Search.tsx:12-21 | the page starts with no listings and the default filters: any type, 0 to 20000, 5 km around (18.5204, 73.8567) |
| Search.FilterListingsIsOneFilter | pages/Search.tsx:28-46 | the chain of type, price and radius filters equals one filter by their conjunction |
| Search.FilterListingsMeaning | pages/Search.tsx:28-46 | the result is an order-preserving subsequence of the listings holding exactly those of the chosen type (any when empty), within the inclusive price band and within the radius |
| Search.FilterListingsIdempotent | pages/Search.tsx:28-46 | filtering the result again with the same filters changes nothing |
| Search.PriceBandInclusive | pages/Search.tsx:30 | rents equal to the minimum or the maximum are kept |
| Search.SearchPage.Refilter | pages/Search.tsx:27-47 | after the effect the shown list is the filtered listings |
| Search.SearchPage.Loaded | pages/Search.tsx:24 | the fetched listings replace the list and are re-filtered; filters are untouched |
| Search.SearchPage.SetType | pages/Search.tsx:73 | only the type changes, and the list is re-filtered |
| Search.SearchPage.SetMaxPrice | pages/Search.tsx:89 | only the maximum price changes, and the list is re-filtered |
| Search.SearchPage.SetRadius | pages/Search.tsx:100 | only the radius changes, and the list is re-filtered |
| Search.SearchPage.SelectLocation | pages/Search.tsx:49-51 | only the centre changes, and the list is re-filtered |
| Search.SearchPage.ClearAll | pages/Search.tsx:61 | the filters become exactly the defaults |
| ProfileForm.ProfilePage.constructor | pages/Profile.tsx:13-22 | the form starts from the user's values, falling back to '', age 18 and 'Prefer not', with the box unchecked and no error |
| ProfileForm.NewUserForm | pages/Profile.tsx:13-21 | a freshly signed-up user opens an empty form with age 18 and 'Prefer not' |
| ProfileForm.ChangeIsLocal | pages/Profile.tsx:24-35 | a change writes only its named field (a checked box also the current address) and that field takes the new value; checking copies the permanent address |
| ProfileForm.SameAddressIsSnapshot | pages/Profile.tsx:30-32 | the copy is taken once: later edits of the permanent address do not follow, and unchecking restores nothing |
| ProfileForm.ProfilePage.HandleChange | pages/Profile.tsx:24-35 | the form becomes the changed form |
| ProfileForm.ValidateProfileMeaning | pages/Profile.tsx:41-54 | a form passes exactly when name, phone and permanent address are given, the phone is an Indian mobile number and the age is at least 18; a missing field is reported before a bad phone |
| ProfileForm.ProfileRoundTrip | pages/Profile.tsx:56-65 | saving a passing form marks the profile complete, keeps the role, and reopening shows the same values |
| ProfileForm.ProfilePage.HandleSubmit | pages/Profile.tsx:37-70 | a failed check shows its message and sends nothing; otherwise the form is sent with profileComplete true, completion is reported exactly when the update succeeds, and a failed update shows 'Failed to update profile' |
| ListingWizard.Wizard.constructor | pages/AddProperty.tsx:13-25 | the wizard starts on step 1, unpublished, with rent 5000, no images, no address, at the centre of Pune |
| ListingWizard.ValidateStep1 | pages/AddProperty.tsx:52-56 | step one is valid exactly when rent is positive and a description is given; the rent message comes first |
| ListingWizard.Wizard.HandleNext | pages/AddProperty.tsx:58-66 | a valid step one moves to step 2 and clears the error; otherwise the message is shown and the step kept |
| ListingWizard.Wizard.Back | pages/AddProperty.tsx:244 | the wizard returns to step 1 |
| ListingWizard.Wizard.Edit | pages/AddProperty.tsx:153-193 | each step-one input sets its own field |
| ListingWizard.Wizard.AddImage | pages/AddProperty.tsx:34-37 | a read image is appended at the end |
| ListingWizard.RemoveImageAtMeaning | pages/AddProperty.tsx:227 | removing index i deletes exactly that image, keeping the others in order; an index outside the list removes nothing |
| ListingWizard.AddThenRemove | pages/AddProperty.tsx:34-37 | appending an image and removing the last index gives the list back |
| ListingWizard.Wizard.RemoveImage | pages/AddProperty.tsx:227 | the image list becomes the list without that index |
| ListingWizard.SelectLocationMeaning | pages/AddProperty.tsx:44-50 | the point always moves; the address changes only when a non-empty one is given |
| ListingWizard.Wizard.HandleLocationSelect | pages/AddProperty.tsx:44-50 | the form takes the selected location |
| ListingWizard.SubmittedImages | pages/AddProperty.tsx:84 | the images sent are the form's when there are any, otherwise exactly the one default placeholder |
| ListingWizard.Wizard.HandleSubmit | pages/AddProperty.tsx:68-91 | without an address the location message is shown and the store is untouched; otherwise the listing is published with the owner's id and the submitted images, and the published id is shown exactly when the backend accepts it, else the generic error; accounts, users, session, wishlist and requests never change |
| AuthForm.AuthPage.constructor | pages/Auth.tsx:9-13 | the form starts in login mode with empty fields |
| AuthForm.AuthPage.Toggle | pages/Auth.tsx:108 | the mode flips |
| AuthForm.ValidateAuthMeaning | pages/Auth.tsx:19-27 | a submission is accepted exactly when email and password are given and, when signing up, the confirmation matches; login mode never reads the confirmation |
| AuthForm.AuthPage.HandleSubmit | pages/Auth.tsx:15-31 | the error is cleared; a failed check shows its message and calls nothing; otherwise `onLogin(email)` is called once |
| Landing.FeaturedMeaning | pages/Landing.tsx:16 | the featured listings are the first min(3, n), in order |
| Landing.ListPropertyMeaning | pages/Landing.tsx:19-36 | nobody signed in goes to 'auth'; an owner goes to 'add-property'; a seeker who confirms is promoted and goes there, one who declines goes nowhere; a role-less user goes to 'role-selection' |
| Landing.HandleListProperty | pages/Landing.tsx:27-32 | the promotion writes role TENANT, and nothing else, to the signed-in user's row before navigating; if it fails there is no navigation; no other branch writes anything |
| PropertyDetails.FindById | pages/PropertyDetails.tsx:22 | the first listing with the id is found, and none only when no listing has it |
| PropertyDetails.HasId | pages/PropertyDetails.tsx:29 | `some` holds exactly when some item has the id |
| PropertyDetails.FindAgreesWithHasId | pages/PropertyDetails.tsx:22-29 | lookup succeeds exactly when membership holds |
| PropertyDetails.ImageOr | pages/PropertyDetails.tsx:66-68 | a missing or empty image shows its fallback, and a present one is shown |
| PropertyDetails.GalleryFallbacks | pages/PropertyDetails.tsx:66-68 | the second and third gallery images are never empty: the listing's own when present, the fixed placeholders otherwise |
| PropertyDetails.DescriptionFallback | pages/PropertyDetails.tsx:110 | the description shown is never empty: the listing's own when given, the fixed default text otherwise |
| PropertyDetails.DetailsPage.constructor | pages/PropertyDetails.tsx:14-18 | the page starts loading, with nothing found, sent or wishlisted |
| PropertyDetails.DetailsPage.Load | pages/PropertyDetails.tsx:20-32 | the shown listing is the first with the id among all listings, "not found" exactly when none has it; the wishlist is read only when signed in, and the heart is set exactly when the listing is on it |
| PropertyDetails.DetailsPage.SetMessage | pages/PropertyDetails.tsx:149 | the enquiry text is the text typed |
| PropertyDetails.DetailsPage.HandleToggleWishlist | pages/PropertyDetails.tsx:34-41 | signed out goes to 'auth' with no api call; signed in, the heart takes the toggle's answer: the pair's new membership when the backend answers, and true with the table unchanged when the backend fails, since the source ignores the errors |
| PropertyDetails.DetailsPage.HandleSendRequest | pages/PropertyDetails.tsx:43-53 | signed out goes to 'auth' and an empty message does nothing, both leaving the store untouched; otherwise a 'new' request from the user to the listing's owner is appended after the existing ones, which stay as they were, and `sent` becomes true, unless the backend refuses it; the other tables and the session never change |
| Dashboard.OwnerPropertiesMeaning | pages/Dashboard.tsx:19 | the owner's list holds exactly the user's own listings, in the order loaded |
| Dashboard.CountMeaning | pages/Dashboard.tsx:51-55 | a filtered count is at most the length, equals it exactly when every element qualifies, and is zero exactly when none does |
| Dashboard.NewRequestCountMeaning | pages/Dashboard.tsx:51 | "New Requests" is at most the total, the total exactly when all requests are new, and 0 exactly when none is |
| Dashboard.NewRequestsCounted | pages/Dashboard.tsx:51 | "New Requests" is the size of the multiset holding every copy of each request with status 'new' and nothing else |
| Dashboard.VerifiedCountMeaning | pages/Dashboard.tsx:55 | "Verified" is at most the total, the total exactly when all listings are verified, and 0 exactly when none is |
| Dashboard.VerifiedCounted | pages/Dashboard.tsx:55 | "Verified" is the size of the multiset holding every copy of each verified listing and nothing else |
| Dashboard.RecentActivityMeaning | pages/Dashboard.tsx:96 | recent activity is the first min(5, n) requests, in order |
| Dashboard.DashboardRoles | pages/Dashboard.tsx:17-27 | only TENANT gets the owner view, whose figures come from the user's own listings; every other role, NONE included, gets the seeker view with the wishlist length and request count |

## Left out

- The great-circle distance (`getDistance`, pages/Search.tsx:33-42) is floating-point trigonometry. It is the parameter `Distance`, and only its comparison with the radius is modelled.
- The map picker with its geocoding, the Gemini helper, the layout, the markup, and the wishlist and role-selection pages are not part of this model. The two pages only delegate to `toggleWishlist`/`getWishlist`/`updateProfile` and a completion callback, which are modelled.
- The `FileReader` conversion of uploaded files to data URLs: only the append of the resulting string is modelled (`ListingWizard.Wizard.AddImage`).
- The auth provider's client, the asynchronous auth listener and its unsubscription: these become explicit `AuthEvent` values and store methods. Interleavings of concurrent requests are not modelled; each handler runs to completion.
- Backend failures are a `fault` flag per query or insert, plus `readFault` for the closing read of `SignUp` and `Login`. Partial failures are not modelled, such as a profile insert failing after a successful sign-up (the source ignores that error). `Api.Store.SignUp` always inserts the profile row.
- Api.Store.Login: a `signInWithPassword` error other than wrong or unknown credentials (a network or rate-limit error) is not representable. In the source any such error also falls back to `signUp`, which then fails on an existing email; the model only reaches that fallback through the credentials.
- Api.Store.SignUp: the new identity is signed in at once, as it is when the backend does not require email confirmation. With confirmation on, `signUp` leaves no session and the closing read gives null; the model does not represent that setting.
- `Api.Store.GetProperties`: the seed is returned unfiltered when the backend is unavailable or fails, as the code does, although a filtered answer might be expected. The seed's creation time is the constant `seedTime`.
- `Api.Store.SendRequest` and `Api.Store.GetRequests` return the stored request as it is, as the source returns raw rows. The model has one request type, so the difference between snake_case rows and camelCase requests is not represented.
- `Api.Store.GetWishlist`: the order of an `.in()` query is unspecified. The model returns the properties in table order.
- Row ids: the backend's UUIDs are prefix-plus-counter ids from `RowIds`. Timestamps are integers from the store's clock. Date formatting is not modelled.
- `ProfileForm.ProfilePage.HandleSubmit`: the age field is an `int`. The source's text-to-number coercion of the age input (`formData.age < 18`, `Number(formData.age)`) is not modelled.
- `ListingWizard.ValidateStep1`: `NaN` rents are not representable. A rent is an integer, and `!rent` is `rent == 0`.
- `Navigation.App.HandleLogin` is the corrected handler (see Findings). The written one is `Navigation.App.HandleLoginAsWritten`.

## Findings

| source | as written | input that shows it | evidently intended | confidence | as-written member | corrected member |
|---|---|---|---|---|---|---|
| App.tsx:57-60 | `handleLogin`, the sign-in form's only callback, has an empty body, and nothing else calls `api.login`; a submitted sign-in never signs anyone in | a configured backend, the 'auth' page open and the sign-in form submitted with any email and password: the user stays null and the sign-in form stays | sign in (or sign up) with the submitted credentials, then gate the page as the sign-in notification does; this also needs the sign-in form (pages/Auth.tsx:30) to pass the password, since `onLogin(email)` passes only the email | medium, not executed | Navigation.App.HandleLoginAsWritten, Navigation.LoginDiscrepancy | Navigation.App.HandleLogin |
