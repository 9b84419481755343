# ngolib core, modelled in Dafny

ngolib is a donation and volunteering platform. It has a React client and an
Express/MySQL backend. This project models the decision logic and the local
state changes of that core, and proves what they promise:

- **Backend controllers.**
  - The search endpoints join the tag table and the NGO/opportunity–tag pair
    tables into per-entity tag lists.
  - The tag model adds and deletes admin tags.
  - The opportunity controller posts volunteering offers.
  - The auth controller handles signup, login, logout, `me` and password reset.
  - The profile controller fetches the profile per role, stores images,
    unfollows, unsubscribes and records donations.
- **Client pages.**
  - The search page filters, pages and persists its state.
  - The payment form formats and validates its fields.
  - The route guard and the two headers choose pages by role.
  - The admin page filters subscriptions, switches subscription status and
    manages tags.
  - The profile page, the NGO verification panel and the post-volunteer form.

Each source file becomes one module.

- Code made of pure decisions becomes functions with contracts.
- Component state and database tables become class fields. Handlers and
  endpoints become methods, whose `ensures` tie the new state to the old one.
  The decision an endpoint takes is stated once, as a function, and the
  method is proved to follow it.
- Everything outside the logic becomes a parameter. This covers database
  query outcomes, request outcomes, `bcrypt.compare`, base64, `parseFloat`
  and the current time.

Shared modules:

- `Wrappers`: JavaScript `undefined`/`null` as `Option`.
- `Lists`: `Array.prototype.filter` and order-preserving subsequences.
- `JsText`: `\s`, `\d`, `parseInt` and friends.
- `Backend`: a query outcome and the session user.
- `Sections`: the accordion toggle shared by the admin and profile pages.

## Model

| member | source | states |
|---|---|---|
| SearchController.TagMap | src/backend/controllers/searchController.js:11 | the tag map has an entry for exactly the ids of the tag table |
| SearchController.TagMapLastWins | src/backend/controllers/searchController.js:11 | for a repeated id, the map holds the name of the last row carrying it |
| SearchController.NamesFor | src/backend/controllers/searchController.js:14-20 | at most one name per pair; a name is listed iff some pair of that entity resolves to it |
| SearchController.ProcessTags | src/backend/controllers/searchController.js:124-130 | no empty name survives `filter(Boolean)`; an entity without pairs gets `[]` |
| SearchController.TagNames | src/backend/controllers/searchController.js:33 | the top-level tag list is every tag name in table order, regardless of use |
| SearchController.VerifiedBit | src/backend/controllers/searchController.js:24 | the `verified` test; PopulateSearchNgos states that every listed NGO carries it |
| SearchController.PopulateSearchNgos | src/backend/controllers/searchController.js:5-38 | the first failing query of the three, including the pairs query alone, goes to `next` with its message; otherwise the list has the input's length and order, every NGO keeps its id and columns, `verified` is the first-byte-equals-1 test, `tags` is its resolved names |
| SearchController.PopulateSearchOpportunities | src/backend/controllers/searchController.js:40-68 | as for NGOs (each of the three failures goes to `next` with its message), matching `volunteering_id` against `opportunity_id`, with no `verified` field |
| SearchController.GetNgoByIdAsWritten | src/backend/controllers/searchController.js:70-121 | 400 iff the id is not all digits (checked before any query); 404 iff the display query is empty; 500 if a query fails; otherwise the first row with an empty tag list, because the tag and pair results reach `processTags` as `[rows, fields]` |
| SearchController.GetNgoById | src/backend/controllers/searchController.js:70-121 | the same replies, with the query rows destructured as in `populateSearchNgos`, so the first row carries its resolved tag names |
| SearchController.IsDigits | src/backend/controllers/searchController.js:79 | the id test; GetNgoByIdAsWritten and GetNgoById state that it fails iff the reply is 400 |
| SearchController.ProcessTagsAsCalled | src/backend/controllers/searchController.js:96-106 | `processTags` on whatever elements it is handed; ProcessTagsOfRows and ProcessTagsOfQueryPairs state its value on rows and on `[rows, fields]` pairs |
| SearchController.GetNgoByIdOnlyTagsDiffer | src/backend/controllers/searchController.js:96-106 | for every input the two versions give the same reply, except that the one as written has no tags |
| SearchController.GetNgoByIdDropsTags | src/backend/controllers/searchController.js:96-106 | an NGO with one tag: as written the reply lists none, as intended it lists that tag |
| SearchController.ProcessTagsOfRows | src/backend/controllers/searchController.js:124-130 | `processTags` over the rows of the queries computes `ProcessTags` |
| SearchController.ProcessTagsOfQueryPairs | src/backend/controllers/searchController.js:124-130 | `processTags` over two `[rows, fields]` results finds no tag, whatever the tables hold |
| SearchController.NamesForAppend | src/backend/controllers/searchController.js:14-20 | the names of concatenated pair lists are the concatenated names |
| SearchController.NamesForOnePerPair | src/backend/controllers/searchController.js:14-20 | when all pairs resolve, the i-th name belongs to the i-th pair: no deduplication, pair order |
| SearchController.NamesForDropsUnresolved | src/backend/controllers/searchController.js:18-20 | a pair with an unknown tag id or an empty name adds nothing |
| SearchController.NamesForOwnPairsOnly | src/backend/controllers/searchController.js:15 | pairs of other entities never affect an entity's names |
| SearchController.PopulateSearchNgosExample | src/backend/__tests__/searchController.test.js:173-176 | the unit-test scenario: NGO 1 gets both tags, NGO 2 one, NGO 3 none |
| Search.Filtered | src/components/search/Search.js:219-227 | an item is shown iff it is not unverified and carries every selected tag |
| Search.FilteredIsOneFilter | src/components/search/Search.js:219-227 | the two filters equal one filter by their conjunction |
| Search.FilteredIsSubsequence | src/components/search/Search.js:219-227 | the shown list is an order-preserving subsequence of the fetched items |
| Search.FilteredAntitone | src/components/search/Search.js:223-227 | more selected tags never show more items |
| Search.WithTag | src/components/search/Search.js:229-232 | the tag is appended only if absent; nothing else changes |
| Search.WithTagKeepsNoDuplicates | src/components/search/Search.js:231 | selecting never creates a duplicate |
| Search.SelectionMonotone | src/components/search/Search.js:229-238 | selecting a tag never enlarges the shown list; removing one never shrinks it |
| Search.Page | src/components/search/Search.js:126-130 | page p shows `items[(p-1)*4 .. p*4)` clipped to the list, at most 4 items |
| Search.PageCount | src/components/search/Search.js:127 | `ceil(n/4)`: the last page is the first whose end reaches n |
| Search.PageButtons | src/components/search/Search.js:154 | the buttons are numbered 1 to the page count |
| Search.FirstPagesPrefix | src/components/search/Search.js:126-130 | pages 1..k laid end to end are the first 4k items |
| Search.PagesCoverItems | src/components/search/Search.js:126-154 | the numbered pages show every item once, in order, none empty; later pages are empty |
| Search.InsertByLength | src/components/search/Search.js:278 | inserting keeps the elements and their multiset |
| Search.InsertByLengthSorted | src/components/search/Search.js:278 | inserting into a list sorted by length keeps it sorted |
| Search.SortByLength | src/components/search/Search.js:278 | the result is sorted by length and a permutation of the input |
| Search.AvailableTags | src/components/search/Search.js:276-278 | the sidebar offers exactly the unselected tags, shortest first |
| Search.Restore | src/components/search/Search.js:179-185 | a stored tag list replaces the current one; a stored non-zero page or non-empty mode replaces the current one; an absent field, a zero page or an empty mode leaves the current one |
| Search.RestoreAfterSave | src/components/search/Search.js:179-194 | saving then restoring gives the state back when page and mode are truthy |
| Search.Save | src/components/search/Search.js:188-194 | the stored object holds the three fields; RestoreAfterSave states that restoring it gives the state back |
| Search.SearchPage.Mount | src/components/search/Search.js:167-194 | the state is restored from the `searchState` entry if any, then saved back |
| Search.SearchPage.Receive | src/components/search/Search.js:196-205 | the fetched items and tags replace the old ones; the view state is unchanged |
| Search.SearchPage.HandleTagClick | src/components/search/Search.js:229-234 | selects the tag if new, goes back to page 1, saves the state |
| Search.SearchPage.RemoveTag | src/components/search/Search.js:236-238 | removes every copy of the tag and keeps the page |
| Search.SearchPage.ChangeMode | src/components/search/Search.js:255-259 | new mode, empty selection, page 1 |
| Search.SearchPage.SetCurrentPage | src/components/search/Search.js:156 | only the page changes; the state is saved |
| JsText.TrimStart | src/components/account/Admin.js:94 | a suffix of the input that does not start with white space |
| JsText.StripSpaces | src/components/donate/donate.js:17 | no white space is left |
| JsText.Digits | src/components/donate/donate.js:67 | only ASCII digits are left |
| JsText.ParseInt | src/backend/models/tagModel.js:61 | `parseInt` is NaN iff no digit follows the white space, the sign and any `0x` prefix |
| JsText.ShowNat | src/components/donate/donate.js:34 | the decimal text of a number is non-empty digits without a leading zero |
| JsText.DecimalValueOfShowNat | src/components/donate/donate.js:34 | reading the digits of a number back gives that number |
| JsText.ParseIntOfDigits | src/components/donate/donate.js:34 | a run of decimal digits parses to the number it denotes |
| JsText.ParseIntShowNat | src/components/donate/donate.js:34 | a route id written as text is read back unchanged by `parseInt` |
| TagModel.AddReply | src/backend/models/tagModel.js:21-55 | 201 with the new id iff the name is new and there is no fault; exactly the 409 'duplicate_tag' iff it is taken and there is no fault; exactly the 500 'database_error' iff there is a fault |
| TagModel.DeleteReply | src/backend/models/tagModel.js:57-110 | 400 iff the id is missing, zero or not a number; then 500 on a fault, 409 iff an NGO pair uses it, 404 iff no row has it, 200 otherwise |
| TagModel.ValidTagId | src/backend/models/tagModel.js:61-67 | the id guard; DeleteReply states that it fails iff the reply is 400 'invalid_id' |
| TagModel.TextKey | src/backend/models/tagModel.js:70-86 | the row a text id selects; TextKeyAgreesWithParseInt states that it is `parseInt`'s value for any valid decimal text |
| TagModel.TextKeyAgreesWithParseInt | src/backend/models/tagModel.js:61-86 | for a valid decimal text id the queries select the id `parseInt` names |
| TagModel.AddTwiceIsDuplicate | src/backend/models/tagModel.js:39-45 | adding a just-added name again is refused as a duplicate |
| TagModel.DeleteRemovesOneRow | src/backend/models/tagModel.js:85-88 | with unique ids, the DELETE removes exactly one row and keeps the others in order |
| TagModel.TagStore.constructor | src/backend/models/tagModel.js:21-110 | the tables start as given, with unique tag ids below the counter |
| TagModel.TagStore.AddTag | src/backend/models/tagModel.js:21-55 | follows AddReply; on 201 exactly one row is appended; otherwise no table changes |
| TagModel.TagStore.DeleteTag | src/backend/models/tagModel.js:57-110 | follows DeleteReply; on 200 the row with that id is filtered out; otherwise nothing changes; the pair tables never change |
| Donate.FormatCardKeepsDigits | src/components/donate/donate.js:67-72 | the formatted card holds exactly the input's digits; removing its spaces gives them back |
| Donate.FormatCard | src/components/donate/donate.js:67-72 | the card handler; FormatCardKeepsDigits, GroupInsertsOnlySpaces, FormatCardIdempotent and FormatCardSixteen state what it keeps and its shape |
| Donate.FormatExpiry | src/components/donate/donate.js:87-91 | the expiry handler; FormatExpiryKeepsDigits, FormatExpiryIdempotent and FormatExpiryShape state what it keeps and its shape |
| Donate.GroupInsertsOnlySpaces | src/components/donate/donate.js:68-71 | grouping adds one space per full group of 4, nothing else |
| Donate.FormatCardIdempotent | src/components/donate/donate.js:67-72 | reformatting a formatted card changes nothing |
| Donate.FormatCardSixteen | src/components/donate/donate.js:67-72 | 16 digits format to 19 characters with spaces at positions 4, 9 and 14 |
| Donate.FormatExpiryKeepsDigits | src/components/donate/donate.js:87-91 | the digits of the result are the typed digits, cut to the first four |
| Donate.FormatExpiryIdempotent | src/components/donate/donate.js:87-91 | reformatting a formatted expiry changes nothing |
| Donate.FormatExpiryShape | src/components/donate/donate.js:87-91 | the formatter yields the `MM/YY` shape iff at least 4 digits were typed |
| Donate.FirstOfNextMonth | src/components/donate/donate.js:145 | `new Date(year, month)` is the first instant of the following month, December rolling over |
| Donate.ValidExpiryMeansNotPastMonth | src/components/donate/donate.js:135-148 | a card is valid iff it has the shape, the month is 1..12, and now is before the month after expiry |
| Donate.IsValidExpiry | src/components/donate/donate.js:135-148 | the expiry test; ValidExpiryMeansNotPastMonth states when it holds |
| Donate.CardAcceptedIffSixteenDigits | src/components/donate/donate.js:16-17 | the card field passes the guard iff 16 digits were typed |
| Donate.FieldsValid | src/components/donate/donate.js:16-21 | the submit guard; HandlePayment states that nothing is sent iff it fails |
| Donate.DonateForm.constructor | src/components/donate/donate.js:7-12 | empty fields, amount '50', no status |
| Donate.DonateForm.ChangeCardNumber | src/components/donate/donate.js:65-73 | the field becomes the formatted input and the status is cleared |
| Donate.DonateForm.ChangeExpiry | src/components/donate/donate.js:85-92 | the field becomes the formatted expiry and the status is cleared |
| Donate.DonateForm.ChangeCvv | src/components/donate/donate.js:104-107 | the CVV is stored as typed; the status is cleared |
| Donate.DonateForm.ChangeAmount | src/components/donate/donate.js:118-121 | the amount is stored as typed; the status is cleared |
| Donate.DonateForm.HandlePayment | src/components/donate/donate.js:13-52 | nothing is sent iff a field is invalid ('Please fill all fields correctly'); otherwise it sends `{ngo_id: parseInt(route id), amount}` and sets the message for ok, not ok and a failed request |
| OpportunityController.AsciiLower | src/backend/controllers/opportunityController.js:13 | the same length; only A–Z change, to a–z |
| OpportunityController.Decide | src/backend/controllers/opportunityController.js:7-48 | 401 iff no session; 403 iff the type is not 'ngo' in any case; 400 for a missing contact row or email, then for a missing title or location; otherwise the row is the body overridden by the contact's ngo id, email and phone |
| OpportunityController.BodyCannotOverrideContact | src/backend/controllers/opportunityController.js:27-32 | whatever the body says, the stored ngo id, email and phone are the same |
| OpportunityController.GetAllOpportunities | src/backend/controllers/opportunityController.js:50-58 | 500 iff the query fails; otherwise the whole `[rows, fields]` pair is sent: the rows unchanged and the field list as given |
| OpportunityController.OpportunityTable.constructor | src/backend/controllers/opportunityController.js:38 | the table starts as given, ids below the counter |
| OpportunityController.OpportunityTable.CreateOpportunity | src/backend/controllers/opportunityController.js:7-48 | follows Decide; 201 with the new id iff a row is inserted; exactly one row is appended then, none otherwise |
| AuthController.CheckSignup | src/backend/controllers/authController.js:23-28 | 'All fields are required' iff email, password or repeat is missing; then 'Passwords do not match' iff they differ |
| AuthController.FindUser | src/backend/controllers/authController.js:64 | finds a row with that email iff one exists |
| AuthController.MeOf | src/backend/controllers/authController.js:102-110 | 401 iff there is no session user; otherwise exactly its id, name, email and type |
| AuthController.CheckReset | src/backend/controllers/authController.js:178-183 | 'Repeat the password' iff either field is missing, then 'Passwords do not match' iff they differ |
| AuthController.FindUserByToken | src/backend/controllers/authController.js:151-172 | the message reply iff the result's `error` is truthy, the user reply iff it is not; a throw iff a 500 with the thrown message |
| AuthController.TokenStatusPassedOn | src/backend/controllers/authController.js:157-165 | unless the lookup throws, the reply has the status the user model chose |
| AuthController.EmptyErrorFallsThrough | src/backend/controllers/authController.js:157 | a result with an empty `error` is answered as a user, with its id, email and status |
| AuthController.ResetReplyOf | src/backend/controllers/authController.js:175-199 | the 400 replies iff a check fails; 200 iff the checks pass and `result.error` is falsy; the result's status and error iff it is truthy; 500 with the thrown message iff `updatePassword` throws |
| AuthController.EmptyUpdateErrorIsSuccess | src/backend/controllers/authController.js:188-192 | a result whose `error` is the empty string is answered 200 'Password updated successfully' |
| AuthController.AuthStore.constructor | src/backend/controllers/authController.js:9-52 | empty tables, no session |
| AuthController.AuthStore.Signup | src/backend/controllers/authController.js:9-52 | the checks come before any insert; a non-duplicate database error of the user insert gives 500 'Error registering user' whether or not the email is taken; otherwise a taken email gives 'Email already in use'; an NGO row linked to the new user id is created iff `isNGO`; a failed NGO insert leaves the user row |
| AuthController.AuthStore.Login | src/backend/controllers/authController.js:56-93 | follows LoginOutcome; a successful login sets the session to exactly the row's id, name, email and type |
| AuthController.AuthStore.Logout | src/backend/controllers/authController.js:96-99 | the session is destroyed and the reply is always 200 |
| AuthController.AuthStore.ResetPassword | src/backend/controllers/authController.js:175-199 | replies as ResetReplyOf; only a 200 replaces that user's hash, every other reply leaves the table unchanged |
| AuthController.SetHash | src/backend/controllers/authController.js:185 | only the rows of that user get the new hash |
| AuthController.LoginOutcome | src/backend/controllers/authController.js:59-89 | 400 iff a field is missing; 401 iff the email is unknown or the password does not match; otherwise logged in with the row's type |
| AuthController.UnknownEmailLooksLikeWrongPassword | src/backend/controllers/authController.js:65-73 | an unknown email and a wrong password give the same 'Invalid credentials' |
| ProfileController.ImageUrl | src/backend/controllers/profileController.js:46-51 | null iff no image is stored; otherwise it starts with `data:image/png;base64,` |
| ProfileController.FetchProfileData | src/backend/controllers/profileController.js:28-90 | 401 iff no session; 404 iff no user row; 500 iff a query of the chosen branch fails; 'user' and 'admin' get their own payloads, any other type the NGO one |
| ProfileController.AfterLastComma | src/backend/controllers/profileController.js:103 | `split(",").pop()`: the suffix after the last comma, or the whole string |
| ProfileController.AfterLastCommaOfDataUrl | src/backend/controllers/profileController.js:103 | a data URL keeps exactly its base64 payload |
| ProfileController.ChooseImage | src/backend/controllers/profileController.js:102-109 | a truthy `imageBase64` wins, else the file buffer, else no image |
| ProfileController.Unfollowed | src/backend/controllers/profileController.js:135 | only the (user, ngo) follow pair is removed |
| ProfileController.Canceled | src/backend/controllers/profileController.js:170 | that user's subscriptions to that NGO become 'canceled'; none is removed and nothing else changes |
| ProfileController.ProfileStore.constructor | src/backend/controllers/profileController.js:92-177 | no images; the other tables as given |
| ProfileController.ProfileStore.StoreUserImage | src/backend/controllers/profileController.js:92-125 | 401 without session, 400 without image, else 500 on a fault, or 200 with the UPDATE's `affectedRows` and the chosen image stored for that user |
| ProfileController.ProfileStore.DeleteFollower | src/backend/controllers/profileController.js:127-141 | a missing session crashes before the check; a falsy ngoId gives 401; otherwise the follow pair is removed or 500 |
| ProfileController.ProfileStore.DeleteUserSubscription | src/backend/controllers/profileController.js:161-177 | as unfollow, but the subscriptions are marked 'canceled' rather than deleted |
| ProfileController.ProfileStore.AddDonate | src/backend/controllers/profileController.js:143-158 | the 401 branch can never answer; no session crashes; otherwise one donation is appended or 500 |
| ProfileController.UnfollowIdempotent | src/backend/controllers/profileController.js:135 | unfollowing twice removes no more than once |
| ProfileController.UnfollowKeepsOthers | src/backend/controllers/profileController.js:135 | every other follow keeps its number of occurrences |
| ProtectedRoute.FetchedUser | src/components/reusable/ProtectedRoute.js:19-27 | a non-ok or failed `me` request leaves no user |
| ProtectedRoute.RoleHome | src/components/reusable/ProtectedRoute.js:35-38 | admin→/admin, NGO→/profile, user→/user, anything else→/home |
| ProtectedRoute.Decide | src/components/reusable/ProtectedRoute.js:30-41 | nothing iff loading; /login iff no user; the children iff the type is allowed; otherwise the role's page |
| ProtectedRoute.OneRedirectSuffices | src/components/reusable/ProtectedRoute.js:35-37 | for each known role the redirect target is a guarded route that admits it; other types land on an unguarded page |
| ProtectedRoute.GuardedRoles | src/index.js:48-50 | the roles each guarded route admits; OneRedirectSuffices states that each role's redirect lands on a route admitting it |
| Header.ProfilePath | src/components/reusable/Header.js:56-59 | NGO→/profile, user→/user, admin→/admin, otherwise /home |
| Header.ProfileTab | src/components/reusable/Header.js:52-61 | 'Log In' → /login without a user, otherwise 'Profile' → the profile path |
| Header.Greeting | src/components/reusable/Header.js:90 | the name, or the email when the name is empty or null |
| Header.ProfilePathIsGuardRedirect | src/components/reusable/Header.js:57-59 | the header's profile path equals the route guard's redirect for every type |
| Header.HeaderView.constructor | src/components/reusable/Header.js:20 | no user yet, at the given location |
| Header.HeaderView.ReceiveMe | src/components/reusable/Header.js:25-34 | an ok `me` body becomes the user; otherwise nothing changes |
| Header.HeaderView.Tabs | src/components/reusable/Header.js:63-76 | Donate, Home, profile tab, then exactly one 'Log out' action for a logged-in user |
| Header.HeaderView.HandleLogout | src/components/reusable/Header.js:37-49 | once the request resolves the user is cleared and the page goes to /home; a throw changes nothing |
| StaticHeader.ProfilePath | html/src/components/reusable/Header.js:26-31 | the same role mapping as the client header |
| StaticHeader.Tabs | html/src/components/reusable/Header.js:23-38 | always exactly three link tabs and never a log-out tab |
| StaticHeader.AgreesWithClientHeader | html/src/components/reusable/Header.js:27-30 | both headers map every type to the same path and build the same profile tab |
| VerifyNgos.Removed | src/components/verify/VerifyNGOs.js:19 | every NGO with that id goes; every other NGO keeps its number of copies and its order |
| VerifyNgos.RemovedIdempotent | src/components/verify/VerifyNGOs.js:19 | removing an id again changes nothing |
| VerifyNgos.VerifyPanel.constructor | src/components/verify/VerifyNGOs.js:7-8 | no NGOs, nothing open |
| VerifyNgos.VerifyPanel.Load | src/components/verify/VerifyNGOs.js:10-15 | a parsed list replaces the NGOs |
| VerifyNgos.VerifyPanel.ToggleDetails | src/components/verify/VerifyNGOs.js:29-31 | the open NGO closes; any other id becomes the open one |
| VerifyNgos.VerifyPanel.HandleApprove | src/components/verify/VerifyNGOs.js:17-21 | once the request resolves, whatever its status, that id leaves the list |
| VerifyNgos.VerifyPanel.HandleReject | src/components/verify/VerifyNGOs.js:23-27 | the same effect on the list as approving |
| PostVolunteer.Normalize | src/components/post_volunteer/PostVolunteer.js:45-50 | an array gives its first element when truthy, else {}; an object gives itself; anything else gives {} |
| PostVolunteer.FieldOr | src/components/post_volunteer/PostVolunteer.js:58-60 | only a missing or null field becomes 'Not available' |
| PostVolunteer.ContactOf | src/components/post_volunteer/PostVolunteer.js:45-61 | an empty list or a primitive shows 'Not available' three times; an object, or a list headed by a truthy one, shows its `ngo_id`, `contact_email` and `phone_nr`, each 'Not available' when missing or null |
| PostVolunteer.ListOfContactIsContact | src/components/post_volunteer/PostVolunteer.js:46-49 | a list holding the contact object shows the same block as the object |
| PostVolunteer.ErrorText | src/components/post_volunteer/PostVolunteer.js:37 | the server's error when non-empty, otherwise the default message |
| PostVolunteer.PostVolunteerPage.constructor | src/components/post_volunteer/PostVolunteer.js:9-20 | loading, no error, no contact, the five empty form fields |
| PostVolunteer.PostVolunteerPage.FetchInitialData | src/components/post_volunteer/PostVolunteer.js:24-71 | loading ends; an ok body sets the contact block; a non-ok reply sets the server's message or the default; a throw sets its message; the form is untouched |
| PostVolunteer.PostVolunteerPage.HandleChange | src/components/post_volunteer/PostVolunteer.js:79-88 | only the named form field changes |
| PostVolunteer.PostVolunteerPage.HandleSubmit | src/components/post_volunteer/PostVolunteer.js:90-123 | the form is sent unchanged; ok navigates to /profile; not ok sets the error and stops loading without navigating |
| Sections.Toggled | src/components/account/Admin.js:84-90 | an open index is filtered out, every copy, with the other indexes kept in order and with their counts, and the list gets shorter; a closed one is appended |
| Sections.ToggledKeepsNoDuplicates | src/components/account/Admin.js:84-90 | the open list never holds duplicates |
| Sections.ToggleTwiceFromClosed | src/components/account/Admin.js:84-90 | opening then closing gives back exactly the same list |
| Sections.ToggleTwiceFromOpen | src/components/account/Admin.js:84-90 | closing then opening gives back the same set of open sections |
| Profile.EffectiveType | src/components/profile/Profile.js:89-90 | a missing or empty type counts as 'NGO' |
| Profile.SectionsFor | src/components/profile/Profile.js:89-94 | the user sections iff the type is 'user'; any other type, missing included, the NGO ones |
| Profile.Unfollowed | src/components/profile/Profile.js:109 | every following of that NGO goes; every other following keeps its number of copies and its order |
| Profile.Canceled | src/components/profile/Profile.js:128-130 | the subscriptions of that NGO become 'canceled'; none is removed and nothing else changes |
| Profile.CanceledHidesUnsubscribe | src/components/profile/Profile.js:265 | after canceling, no subscription of that NGO shows the Unsubscribe button |
| Profile.ShowsUnsubscribe | src/components/profile/Profile.js:265 | the button's condition; CanceledHidesUnsubscribe states that a canceled subscription never shows it |
| Profile.ProfilePage.constructor | src/components/profile/Profile.js:8-10 | no section open, no data |
| Profile.ProfilePage.Load | src/components/profile/Profile.js:15-31 | any parsed body becomes the page's data |
| Profile.ProfilePage.ToggleSection | src/components/profile/Profile.js:70-76 | the shared accordion toggle |
| Profile.ProfilePage.HandleUnfollow | src/components/profile/Profile.js:98-115 | only an ok response removes the followings; a non-ok one throws before any change |
| Profile.ProfilePage.HandleUnsubscribe | src/components/profile/Profile.js:118-136 | any response cancels that NGO's subscriptions, keeping them listed |
| Profile.ProfilePage.ImageUploaded | src/components/profile/Profile.js:53-60 | an ok upload shows the uploaded data URL |
| Admin.Flip | src/components/account/Admin.js:233 | the target is 'canceled' iff the status is 'active', otherwise 'active'; never the current status |
| Admin.FlipTwice | src/components/account/Admin.js:233 | flipping twice restores 'active' and 'canceled' |
| Admin.SetStatus | src/components/account/Admin.js:256-258 | only the rows with that id change, and only their status |
| Admin.SwitchBack | src/components/account/Admin.js:256-258 | switching a subscription and switching it back restores the list exactly |
| Admin.Selected | src/components/account/Admin.js:665-697 | the subscriptions meeting every active criterion, each with its number of copies, in original order |
| Admin.Both | src/components/account/Admin.js:667-697 | combining disjoint criteria means meeting both |
| Admin.SelectedNothing | src/components/account/Admin.js:667 | with no active criterion every subscription is kept |
| Admin.Narrow | src/components/account/Admin.js:684-697 | filtering a filtered list again is one filter by both criteria |
| Admin.SelectedAntitone | src/components/account/Admin.js:665-697 | adding a criterion never keeps more subscriptions |
| Admin.Refine | src/components/account/Admin.js:569-571 | one filter step narrows the list to the accumulated criteria |
| Admin.UserFilterSteps | src/components/account/Admin.js:565-621 | filtering by user, minimum, maximum and NGO in that order keeps exactly those meeting all active criteria |
| Admin.ValueFilterSteps | src/components/account/Admin.js:667-697 | filtering by user, NGO, minimum and maximum in that order gives the same list |
| Admin.IdentifierOfEntries | src/components/account/Admin.js:385 | a loaded tag is identified by its tag_id, an added one by its insert id |
| Admin.AfterRemoval | src/components/account/Admin.js:379-388 | a successful removal drops the entries whose id, _id or tag_id identifies them; every other entry keeps its number of copies and its order |
| Admin.AfterNotFound | src/components/account/Admin.js:433-438 | a 404 drops only the entries whose `id` equals the id; every other entry keeps its number of copies and its order |
| Admin.NotFoundKeepsLoadedTags | src/components/account/Admin.js:436 | loaded tags have no `id`, so the 404 clean-up removes none of them |
| Admin.WireId | src/components/account/Admin.js:346 | an undefined tag id is missing from the request body; a present one is sent as that number |
| Admin.AddedTagCannotBeRemoved | src/components/account/Admin.js:1329 | a tag added on the page has no tag_id, so its Remove button is answered 400 whatever the tables hold |
| Admin.HasTextIffNotBlank | src/components/account/Admin.js:94 | the trimmed input is non-empty iff some character is not white space |
| Admin.AdminPage.Shown | src/components/account/Admin.js:1251 | with the filter flag the accordion lists `filteredSubscriptions`, without it all subscriptions |
| Admin.AdminPage.Loaded | src/components/account/Admin.js:460-466 | the fetched subscriptions and tags; no filter, nothing open |
| Admin.AdminPage.ToggleSection | src/components/account/Admin.js:84-90 | the shared accordion toggle; nothing else changes |
| Admin.AdminPage.HandleStatusChange | src/components/account/Admin.js:232-302 | declining sends nothing and changes nothing; an ok reply switches only that id in `allSubscriptions`, and the filtered list only when `isFiltered` is set, which no handler does |
| Admin.AdminPage.FilterByNgo | src/components/account/Admin.js:505-531 | a selected NGO shows its subscriptions, flagged filtered; otherwise all, unflagged; other criteria are ignored |
| Admin.AdminPage.FilterByUser | src/components/account/Admin.js:563-634 | shows the subscriptions meeting every active criterion; null and unflagged when none is active; `userFilterApplied` iff a user is selected |
| Admin.AdminPage.FilterByValue | src/components/account/Admin.js:665-711 | the same list as the user filter; null when nothing is active; `amountFilterApplied` iff a minimum or maximum is set |
| Admin.AdminPage.CleanFilters | src/components/account/Admin.js:723-733 | clears NGO, amounts, the filtered list and its flags; the selected user stays |
| Admin.AdminPage.HandleAddTag | src/components/account/Admin.js:93-166 | sends the input iff its trim is non-empty; a created tag is appended with its new id and the input cleared; otherwise nothing changes |
| Admin.AdminPage.HandleRemoveTag | src/components/account/Admin.js:331-448 | declining sends nothing; ok removes by id/_id/tag_id; 404 removes by `id` only; any other reply changes nothing |

## Findings

| source | as written | input that shows it | evidently intended | confidence | as-written member | corrected member |
|---|---|---|---|---|---|---|
| src/backend/controllers/searchController.js:96-106 | `getNGOById` passes the undestructured `[rows, fields]` results of `getAllTags` and `getNgoTagPairs` to `processTags`, so `p.ngo_id` is `undefined` and the NGO always gets `tags: []` | id "1"; display row `{ngo_id: 1}`; tag `{tag_id: 10, tag: 'A'}`; pair `{ngo_id: 1, tag_id: 10}` | destructure the rows as `populateSearchNgos` does (lines 7-9), giving `tags: ['A']` | high (not executed) | SearchController.GetNgoByIdDropsTags | SearchController.GetNgoById |

## Left out

- The plain list queries `getAllTags`, `getNgoTagPairs` and `getOpportunityTagPairs` in `src/backend/models/tagModel.js` have no logic of their own. Their results are parameters.
- `forgot` in `src/backend/controllers/authController.js` is not modelled. It is random token generation plus sending mail.
- The user model, the NGO model and the admin model are not part of this model. Their results are parameters: query outcomes, `bcrypt` hashes and comparisons, base64 encoding and decoding, and `affectedRows`.
- AuthController.AuthStore.ResetPassword: a result from `updatePassword` without a truthy `error` is taken to mean that the new hash was stored. What the user model writes is not visible to the controller.
- AuthController.AuthStore.Signup: the stored user type is a parameter, because `createUser` is not part of this model.
- TagModel.DeleteReply: a text id is compared with the integer column by its leading signed decimal number. MySQL's conversion of fractional or exponent text and collation are not modelled.
- OpportunityController.AsciiLower: maps only A–Z. Unicode case folding of `toLowerCase` is not modelled.
- Donate.DonateForm.HandlePayment: `parseFloat` is a parameter. Local time, time zones and daylight saving are reduced to a (year, month, elapsed) instant. The `maxLength` limits of the inputs are browser behaviour and are not modelled.
- Admin.Selected: amounts are the numbers `parseFloat` reads. A NaN minimum or maximum, which would reject every row, is not modelled. Nor is the text comparison `String(id)`; the ids are compared as numbers.
- Express behaviour is not modelled: the TypeError a handler throws when it reads a missing session is the `Crashed` reply.
- Rendering, the loading spinners, alerts, console logging and the timing of React state updates are not modelled. Concurrent requests and the stale closure in `handleRemoveTag` are not modelled either.
- The admin page's NGO and user select lists are not modelled. They are built by deduplicating through a `Map` and sorting with `localeCompare`.
- The admin page's donation and action filters, `handleReportDonation` (empty), `handleRedirectVerification` (DOM form submission) and the admin action-log requests are not modelled.
- The admin page's photo upload is not modelled. The upload logic is the same as the profile page's and is covered by Profile.ProfilePage.ImageUploaded.
- The `onChange` setters of the admin filter inputs are plain field assignments; the filter handlers read the resulting fields.
- The `fields` half of the `[rows, fields]` pair in the admin tag list is not modelled. The page reads only `tags[0]`.
- AuthController.FindUser: emails are compared exactly. The SQL lookup and the UNIQUE index behind 'Email already in use' use the table's collation, and MySQL's default collations ignore case and accents. The model therefore finds fewer matches and fewer duplicates than the database. The same holds for AuthController.LoginOutcome and AuthController.AuthStore.Signup, which use FindUser.
- TagModel.AddReply: tag names are compared exactly. The UNIQUE index that raises `ER_DUP_ENTRY` compares them under the table's collation, which by default ignores case and accents.
- TagModel.TagStore.AddTag: a refused insert leaves `nextId` unchanged. InnoDB may use up an auto-increment value on a failed insert, depending on its lock mode; the counter's gaps are not modelled.
- Search.SortByLength: lengths are counted in characters. JavaScript's `length`, which `a.length - b.length` compares, counts UTF-16 code units, so a tag with characters outside the Basic Multilingual Plane can sort differently.
- Donate.DonateForm.HandlePayment: the CVV must be 3 characters, whereas `cvv.length` counts UTF-16 code units. The two differ only for characters outside the Basic Multilingual Plane.
- JsText.ParseIntShowNat: `parseInt` returns a double, which is exact only below 2^53. The round trip is proved for unbounded integers.
- The NGO info page, the signup, login, reset and forgot forms, and the contact page are form plumbing outside this model.
