# TreadX CRM client core in Dafny

TreadX CRM is a browser client for a tyre-recycling sales team. Sales staff record
**leads**: businesses found through a government list or another source. A manager
**validates** a lead, approving or denying it. An agent then **contacts** an approved
lead and finally **converts** a contacted lead into a **vendor**. This project models
the logic of that client:

- the input formatters and validators for Canadian postal codes, phone numbers and
  street numbers;
- the record defaults and the label and colour helpers of the two type modules;
- the authentication state machine with its role checks;
- the query-string helpers of the API client;
- the two in-memory stores the API services use while `USE_MOCK_DATA` is `'true'`,
  and the two older in-memory stores;
- the page and component logic on top of them: the lead and vendor wizards, the
  validation and contact dialogs, the lead page, the lead list, the approval queue,
  the sidebar and the vendor list.

There is one Dafny module per source file:

- `Formatters` for `src/utils/formatters.js`;
- `ApiTypes` and `LegacyTypes` for `src/types/api.js` and `src/types/index.js`;
- `AuthContext`, `ApiClient` and `MockPaging`;
- `LeadsApiService`, `VendorsApiService`, `LeadsService` and `VendorsService`;
- `LeadWizard`, `VendorWizard`, `LeadValidationModal`, `LeadContactModal` and
  `LeadDetailView`;
- `LeadsList`, `LeadsApproval`, `Sidebar` and `VendorsList`.

Three helper modules hold shared vocabulary: `Wrappers` (`Option`, `Result`),
`Seqs` (filter, first index, removal at an index) and `Strings` (ASCII character
classes, JavaScript `trim`, `includes`, `split`, `join`, `replace` of a first
occurrence, decimal rendering).

The model keeps the source's form:

- Code that only computes becomes functions and lemmas.
- Objects whose state changes in place become classes, with the collection held in a
  `seq` field that the methods reassign. These are the in-memory stores, the
  authentication provider and the React components with their `useState` variables.
- Each store method is proved against the specification functions that the lemmas
  talk about (`Filtered`, `IndexOf`, `MergeLead`, `ApplyPatch`, `PageOf`).
- The core's loops are `while` loops with their invariants: `getStatusStats`'s
  `forEach`, `buildQueryParams`'s walk over the entries
  (`ApiClient.BuildQueryParams`) and the lead wizard's check of the current step's
  fields (`LeadWizard.Wizard.ValidateCurrentStep`).

Statuses, roles, contact methods and vendor types are strings with named constants,
because the source switches on arbitrary strings and its default branches matter.
JavaScript `undefined`/`null` fields are `Option`s. Identifiers and timestamps, which
the source takes from `Date.now()` and `new Date()`, are parameters.

The stores and pages enforce less than a lead lifecycle would; the model does what
the code does:

- The stores do not re-check lifecycle rules. `validateLead` writes any status,
  `initiateContact` accepts a lead in any status, and `takeLead` overwrites an
  existing assignee. The model does the same.
- The approval queue is not reachable through a route of its own: `src/App.jsx` has
  no `/leads/approval` entry. The sidebar still links to it, and the model keeps the
  link's highlighting rule.
- `src/pages/leads/LeadsList.jsx:144-151` has the same `getInitials` expression as the
  lead page. Both are modelled by `LeadDetailView.GetInitials`.

## Model

| member | source | states |
|---|---|---|
| Formatters.FormatPostalCode | src/utils/formatters.js:8-20 | empty in gives empty out; at most 7 characters, only upper-case letters and digits apart from the space; exactly 7 characters `XXX XXX` iff the input has at least six letters or digits, the later ones dropped; otherwise the cleaned upper-cased input |
| Formatters.CleanPostalChars | src/utils/formatters.js:11-12 | the cleaned input holds only upper-case letters and digits |
| Formatters.FormatPostalCodeIdempotent | src/utils/formatters.js:8-20 | formatting a formatted postal code returns it unchanged |
| Formatters.ValidatePostalCodeChars | src/utils/formatters.js:27-33 | valid iff the upper-cased input is letter-digit-letter, an optional single white-space character, digit-letter-digit |
| Formatters.UpperCharClass | src/utils/formatters.js:32 | upper-casing turns exactly the letters into upper-case letters and keeps the digits digits |
| Formatters.FormatThenValidatePostalCode | src/utils/formatters.js:8-33 | a formatted postal code validates iff the first six letters and digits of the input alternate letter, digit, letter, digit, letter, digit |
| Formatters.FormatPhoneNumber | src/utils/formatters.js:40-67 | as written: empty in iff empty out; any other input is shown behind the `+1 (` prefix |
| Formatters.FormattedPhoneDigits | src/utils/formatters.js:51-66 | the digits of the formatted number are `1` followed by the first 3, 6 or 10 national digits, by group |
| Formatters.FormatThenValidatePhone | src/utils/formatters.js:40-86 | an input holding at least ten digits formats into a number `validatePhoneNumber` accepts |
| Formatters.TypedPhoneDigitsLost | src/utils/formatters.js:40-67 | as written, typing `5`, `5`, `5` into the field shows `+1 (5`, then `+1 (155)`, then `+1 (115)`: the formatter re-reads its own country code, and formatting twice differs from formatting once |
| Formatters.PrefixReread | src/utils/formatters.js:40-49 | as written, reformatting `+1 (5` gives `+1 (15` |
| Formatters.PhoneNationalDigits | src/utils/formatters.js:43-49 | corrected: the national digits are all digits and at most ten |
| Formatters.FormatPhoneNumberFixed | src/utils/formatters.js:40-67 | corrected formatter: empty in iff empty out; any other input is shown behind `+1 (` |
| Formatters.FixedPhoneDigits | src/utils/formatters.js:51-66 | corrected: the shown digits are exactly `1` and the national digits, none dropped |
| Formatters.GroupPhoneDigits | src/utils/formatters.js:51-66 | corrected: grouping the national digits 3-3-4 adds only the country code and punctuation |
| Formatters.FixedPhoneNationalDigits | src/utils/formatters.js:43-66 | corrected: reading a formatted number back yields the same national digits |
| Formatters.FormatPhoneNumberFixedIdempotent | src/utils/formatters.js:40-67 | corrected: formatting a formatted number changes nothing |
| Formatters.TypedPhoneDigitKept | src/utils/formatters.js:127-135 | corrected: a digit typed after a formatted number, while fewer than ten are present, is appended to the national digits |
| Formatters.FormatFixedThenValidatePhone | src/utils/formatters.js:40-86 | corrected: a number with ten national digits formats into a valid one |
| Formatters.FormatStreetNumber | src/utils/formatters.js:93-98 | the result is digits only, no longer than the input, and keeps every digit of the input |
| Formatters.FormatStreetNumberPieces | src/utils/formatters.js:93-98 | formatting is character by character: a digit is kept, anything else dropped, and two pieces format into the concatenation of their results |
| Formatters.FormatStreetNumberKeepsValid | src/utils/formatters.js:93-110 | a valid street number is its own formatting |
| Formatters.FormatStreetNumberIdempotent | src/utils/formatters.js:93-98 | formatting twice is formatting once |
| Formatters.FormatThenValidateStreetNumber | src/utils/formatters.js:93-110 | a formatted street number is valid iff the input held a digit |
| ApiTypes.DefaultLeadRequest | src/types/api.js:49-62 | a pending lead from a government source with every text field empty and no vendor |
| ApiTypes.DefaultVendorRequest | src/types/api.js:97-108 | an active vendor tied to no lead, every text field empty |
| ApiTypes.DefaultValidationRequest | src/types/api.js:168-171 | status PENDING with empty notes |
| ApiTypes.DefaultContactRequest | src/types/api.js:174-180 | contact method PHONE with every detail empty |
| ApiTypes.GetStatusColor | src/types/api.js:253-270 | one badge class per status, each class iff its status; DONE and every unknown status share the gray default |
| ApiTypes.CapitalizeWords | src/types/api.js:273 | the same length; exactly the characters that start a word are upper-cased, the others unchanged |
| ApiTypes.GetStatusLabel | src/types/api.js:272-274 | the label has the status's length |
| ApiTypes.StatusLabelOfWord | src/types/api.js:272-274 | an upper-case word keeps its first letter and lower-cases the rest |
| ApiTypes.StatusLabels | src/types/api.js:4-11 | the six statuses read `Pending`, `Approved`, `Denied`, `Contacted`, `Onboarded` and `Done` |
| ApiTypes.StatusLabelUnderscores | src/types/api.js:273 | only the first underscore becomes a space; later ones stay underscores |
| ApiTypes.GetContactMethodLabel | src/types/api.js:276-289 | the four methods map to their fixed labels; any other value is returned unchanged |
| ApiTypes.ContactMethodLabelChanges | src/types/api.js:276-289 | the label differs from its input iff the input is one of the four methods |
| ApiTypes.FormatAddress | src/types/api.js:291-299 | empty iff all four parts are empty |
| ApiTypes.FormatAddressShape | src/types/api.js:291-299 | when some part is non-empty, the address starts with the first non-empty part and ends with the last, and its length is theirs plus two per `, ` between them: no leading, trailing or doubled separator |
| ApiTypes.FormatFullName | src/types/api.js:301-303 | both names joined by one space; one name alone when the other is empty; empty when both are |
| LegacyTypes.DefaultLead | src/types/index.js:51-71 | a new, medium-priority passenger-tyre lead with no activity, zero value and quantity, created and updated now |
| LegacyTypes.DefaultVendor | src/types/index.js:73-93 | an active tyre manufacturer with no contact and no lead, created and updated now |
| LegacyTypes.DefaultContact | src/types/index.js:95-104 | a non-primary contact attached to no vendor |
| LegacyTypes.DefaultActivity | src/types/index.js:106-114 | a note created now |
| LegacyTypes.ValidateEmailIff | src/types/index.js:116-119 | accepted iff there is no white space and exactly one `@`, with text before it and, after it, a dot with text on both sides |
| LegacyTypes.ValidatePhoneIff | src/types/index.js:121-124 | accepted iff every character is a digit, white space, `-`, `(` or `)`, apart from one optional leading `+`, and there are at least ten digits |
| AuthContext.RoleName | src/contexts/AuthContext.jsx:14 | the name of a role given as an object or a plain name; a missing role has none; a `null` role throws |
| AuthContext.Normalize | src/contexts/AuthContext.jsx:12-15 | the user with `roleName` agreeing with `role`, every other field kept; fails iff the role is `null` |
| AuthContext.Reduce | src/contexts/AuthContext.jsx:6-53 | LOGIN_START sets loading and clears the error, nothing else; LOGIN_SUCCESS signs in with the normalised user and fails iff its role is `null`; LOGIN_FAILURE and LOGOUT sign out, LOGOUT clearing the error and keeping `loading`; SET_USER replaces only the user; CLEAR_ERROR changes only the error; an unknown action changes nothing |
| AuthContext.InitialStateInv | src/contexts/AuthContext.jsx:55-61 | the initial state satisfies the session invariant |
| AuthContext.ReducePreservesInv | src/contexts/AuthContext.jsx:6-53 | every action that does not throw keeps the invariant: a signed-in session has a user, a token is held only while signed in, and a stored user's role name agrees with its role |
| AuthContext.ReachableInv | src/contexts/AuthContext.jsx:6-64 | every state reached by a run of actions from an invariant state satisfies the invariant |
| AuthContext.HasRole | src/contexts/AuthContext.jsx:136-138 | exact, case-sensitive equality with the signed-in user's role name; false when nobody is signed in |
| AuthContext.HasAnyRole | src/contexts/AuthContext.jsx:140-142 | true iff some list entry, holes included, equals the current role name |
| AuthContext.HasAnyRoleSignedOut | src/contexts/AuthContext.jsx:140-142 | when nobody is signed in, a list admits iff it holds a hole |
| AuthContext.HasAnyRoleIsSomeHasRole | src/contexts/AuthContext.jsx:136-142 | for a list without holes, `hasAnyRole` is `hasRole` of some entry |
| AuthContext.MergeUser | src/contexts/AuthContext.jsx:124-130 | each field given replaces the user's and each absent one keeps the current user's; with nobody signed in the absent fields are missing; `roleName` is left for normalisation |
| AuthContext.LoginErrorMessage | src/contexts/AuthContext.jsx:110 | never empty; the server's message when it sent a non-empty one |
| AuthContext.AuthProvider.Dispatch | src/contexts/AuthContext.jsx:64 | the state becomes the reducer's result, and stays as it was if the reducer throws; `login` and `updateUser` normalise the role, which throws on a `null` role, before they dispatch, so no dispatch of theirs takes the throwing path |
| AuthContext.AuthProvider.Login | src/contexts/AuthContext.jsx:87-116 | succeeds iff the service answered with a profile whose role is not `null`; on success signed in and idle with the error cleared, otherwise signed out with the server's message or `Login failed` |
| AuthContext.AuthProvider.Logout | src/contexts/AuthContext.jsx:118-122 | signed out with the error cleared; `loading` unchanged |
| AuthContext.AuthProvider.UpdateUser | src/contexts/AuthContext.jsx:124-130 | the merged user, normalised, replaces the current one; a merge with a `null` role changes nothing |
| AuthContext.AuthProvider.ClearError | src/contexts/AuthContext.jsx:132-134 | only the error changes |
| ApiClient.BuildQueryParams | src/services/apiClient.js:85-95 | the pairs the loop appends are the query of the entries |
| ApiClient.QueryPairsAppend | src/services/apiClient.js:88-92 | entries are emitted in insertion order (the order `Object.entries` gives for non-numeric keys): the query of a concatenation is the concatenation of the queries |
| ApiClient.QueryPairsExact | src/services/apiClient.js:88-92 | a pair is emitted iff some entry has its key and a kept value rendering to it; only `null`, `undefined` and `''` are dropped, so `0` and `false` are kept |
| ApiClient.PaginationDefaults | src/services/apiClient.js:98-112 | when the caller sets no paging key, the query starts with `page=0`, `size=10`, `sortBy=createdAt` and `direction=desc` |
| ApiClient.PaginationQuery | src/services/apiClient.js:98-112 | for any parameters, the query is the kept pairs among the four resolved paging entries, in the order page, size, sortBy, direction, followed by the filters' pairs |
| ApiClient.PagingKeyEmitted | src/services/apiClient.js:85-112 | a paging key is emitted with the caller's value, or the default when undefined, if that value is kept; a `null` or `''` is not replaced by the default and drops the key |
| ApiClient.PagingKeysOnce | src/services/apiClient.js:98-112 | no paging key appears twice in the query: the filters never carry one |
| ApiClient.HandleApiError | src/services/apiClient.js:115-129 | the server's message, else the server's error, else the error's own message, else the default |
| ApiClient.HandleApiErrorNonEmpty | src/services/apiClient.js:115-129 | the chosen message is never empty when the default is not |
| MockPaging.PageSize | src/services/leadsApiService.js:286 | a missing or zero size means ten, so the size is at least one |
| MockPaging.Slice | src/services/leadsApiService.js:291 | `slice(start, end)`: the run of items from `start`, cut at `end` and at the end of the list |
| MockPaging.PageContent | src/services/leadsApiService.js:285-292 | the content is the run of at most `size` items starting at `page * size`, and `totalElements` is the length of the filtered list |
| MockPaging.PageTotals | src/services/leadsApiService.js:293 | `totalPages` is the least number of pages of `size` items that hold the list |
| MockPaging.PageFlags | src/services/leadsApiService.js:296-299 | `first` iff page 0, `last` iff the page reaches the end, `empty` iff the list is empty, and `numberOfElements` is `min(size, total - start)` without clamping |
| MockPaging.NumberOfElementsPastEnd | src/services/leadsApiService.js:298 | `numberOfElements` equals the content length for pages that start inside the list and is negative for pages past its end |
| MockPaging.PagesCoverAll | src/services/leadsApiService.js:285-299 | walking pages `0` to `totalPages - 1` lists every item once, in order |
| MockPaging.PageIsSlice | src/services/leadsApiService.js:285-292 | page `i` of size `s` holds the items from `i * s` up to `i * s + s` |
| MockPaging.FirstPageDefault | src/services/leadsApiService.js:285-292 | with no page and no size given, the content is the first ten items |
| MockPaging.PagesUpToPrefix | src/services/leadsApiService.js:285-292 | the first `k` pages together are the first `k * size` items of the list |
| LeadsApiService.FilterStatus | src/services/leadsApiService.js:272-274 | without a status the list is unchanged; with one, exactly the leads with that status are kept |
| LeadsApiService.FilterSearch | src/services/leadsApiService.js:276-283 | without a term the list is unchanged; with one, exactly the leads whose business name or notes contain it ignoring case, or whose phone number contains the lower-cased term, are kept |
| LeadsApiService.Filtered | src/services/leadsApiService.js:272-283 | exactly the leads passing both filters, never more than the store holds |
| LeadsApiService.IndexOf | src/services/leadsApiService.js:317 | the first lead with the id, or -1 iff none has it |
| LeadsApiService.NewLead | src/services/leadsApiService.js:327-341 | every field of the form, with the new id, created and updated now, the file's name or none, and all ten validation, contact and assignment fields unset |
| LeadsApiService.MergeLead | src/services/leadsApiService.js:343-360 | all eleven form fields replace the lead's; the update time is now; the old file name stays when no file is given; every other field, including the id and creation time, is the lead's |
| LeadsApiService.ValidatedLead | src/services/leadsApiService.js:380-401 | the requested status whatever the current one; the old notes kept when the new ones are empty or absent; validation time and validator recorded; nothing else changes |
| LeadsApiService.ContactedLead | src/services/leadsApiService.js:403-424 | status CONTACTED, the five contact fields copied and the update time now, whatever the prior status; every other field is the lead's |
| LeadsApiService.FilePreviewUrl | src/services/leadsApiService.js:444-446 | `#preview-` followed by the id's digits |
| LeadsApiService.FileDownloadUrl | src/services/leadsApiService.js:448-450 | `#download-` followed by the id's digits |
| LeadsApiService.FileUrlsDistinct | src/services/leadsApiService.js:444-450 | a preview link never equals a download link, and different leads get different preview links |
| LeadsApiService.LeadsApiStore.GetLeads | src/services/leadsApiService.js:267-303 | the requested page of the filtered leads |
| LeadsApiService.LeadsApiStore.GetLeadsByStatus | src/services/leadsApiService.js:305-307 | `getLeads` with the status, where a status already among the parameters wins |
| LeadsApiService.LeadsApiStore.GetMyLeads | src/services/leadsApiService.js:309-312 | `getLeads` with the same parameters; the in-memory store does not filter by owner |
| LeadsApiService.LeadsApiStore.GetLead | src/services/leadsApiService.js:314-325 | found iff some lead has the id, and then the first one; otherwise `Lead not found` |
| LeadsApiService.LeadsApiStore.CreateLead | src/services/leadsApiService.js:327-341 | the new lead goes to the front; the store grows by one |
| LeadsApiService.LeadsApiStore.UpdateLead | src/services/leadsApiService.js:343-364 | the merged lead replaces the lead at the same index and the others are unchanged; an unknown id fails with `Lead not found` and changes nothing |
| LeadsApiService.LeadsApiStore.DeleteLead | src/services/leadsApiService.js:366-378 | exactly the found lead is removed and the rest keep their order; an unknown id fails and changes nothing |
| LeadsApiService.LeadsApiStore.ValidateLead | src/services/leadsApiService.js:380-401 | the validated lead replaces the found one and is returned; an unknown id fails and changes nothing |
| LeadsApiService.LeadsApiStore.InitiateContact | src/services/leadsApiService.js:403-424 | the contacted lead replaces the found one and is returned; an unknown id fails and changes nothing |
| LeadsApiService.LeadsApiStore.TakeLead | src/services/leadsApiService.js:426-442 | the assignee is overwritten even when already set, and the update time is now; an unknown id fails and changes nothing |
| LeadsApiService.DeleteUniqueRemovesId | src/services/leadsApiService.js:366-378 | deleting a lead whose id is unique leaves no lead with that id and one lead fewer |
| LeadsApiService.UpdateThenGet | src/services/leadsApiService.js:314-360 | after an update, looking the id up finds the merged lead at the same index, with the form's status |
| LeadsApiService.CreateThenGet | src/services/leadsApiService.js:314-341 | looking up a created lead's id finds it at the front |
| LeadsApiService.ByStatusPageHasStatus | src/services/leadsApiService.js:305-307 | every lead on a status page has that status |
| VendorsApiService.FilterStatus | src/services/vendorsApiService.js:159-161 | without a status the list is unchanged; with one, exactly the vendors with that status are kept |
| VendorsApiService.FilterSearch | src/services/vendorsApiService.js:163-171 | without a term the list is unchanged; with one, exactly the vendors whose legal name, business name, e-mail or phone number contains it, ignoring case, are kept |
| VendorsApiService.Filtered | src/services/vendorsApiService.js:159-171 | exactly the vendors passing both filters |
| VendorsApiService.IndexOf | src/services/vendorsApiService.js:204 | the first vendor with the id, or -1 iff none has it |
| VendorsApiService.UniqueId | src/services/vendorsApiService.js:219 | `VND-` followed by the creation time's digits |
| VendorsApiService.UniqueIdInjective | src/services/vendorsApiService.js:219 | vendors created at different times get different unique ids |
| VendorsApiService.NewVendor | src/services/vendorsApiService.js:214-226 | every field of the form, with the creation time as the id and the `VND-` unique id |
| VendorsApiService.ApplyPatch | src/services/vendorsApiService.js:228-243 | each field the update carries replaces the vendor's; the ids stay |
| VendorsApiService.ApplyPatchIdempotent | src/services/vendorsApiService.js:228-243 | the same update applied twice is applied once, and the empty update changes nothing |
| VendorsApiService.ApplyPatchCompose | src/services/vendorsApiService.js:228-243 | two updates in a row are one update in which the later wins field by field |
| VendorsApiService.VendorsApiStore.GetVendors | src/services/vendorsApiService.js:154-191 | the requested page of the filtered vendors, with the same arithmetic as the lead store |
| VendorsApiService.VendorsApiStore.GetVendorsByStatus | src/services/vendorsApiService.js:193-195 | `getVendors` with the status, where a status among the parameters wins |
| VendorsApiService.VendorsApiStore.SearchVendors | src/services/vendorsApiService.js:197-199 | `getVendors` with the search term, where a term among the parameters wins |
| VendorsApiService.VendorsApiStore.GetVendor | src/services/vendorsApiService.js:201-212 | found iff some vendor has the id, and then the first one; otherwise `Vendor not found` |
| VendorsApiService.VendorsApiStore.CreateVendor | src/services/vendorsApiService.js:214-226 | the new vendor goes to the front |
| VendorsApiService.VendorsApiStore.UpdateVendor | src/services/vendorsApiService.js:228-243 | the updated vendor replaces the one at the same index and the others are unchanged; an unknown id fails with `Vendor not found` and changes nothing |
| VendorsApiService.VendorsApiStore.DeleteVendor | src/services/vendorsApiService.js:249-261 | exactly the found vendor is removed; an unknown id fails and changes nothing |
| VendorsApiService.SearchPageMatches | src/services/vendorsApiService.js:197-199 | every vendor a search returns matches the term |
| VendorsApiService.VendorsUseMockAsWritten | src/services/vendorsApiService.js:265 | as written: the in-memory store is picked whenever the flag is a non-empty string |
| VendorsApiService.MockSwitchDisagrees | src/services/vendorsApiService.js:265 | as written, the flag `'false'` sends leads to the server but keeps vendors in memory |
| VendorsApiService.VendorsUseMock | src/services/leadsApiService.js:463 | corrected: the in-memory store is picked iff the flag is `'true'` |
| VendorsApiService.MockSwitchAgrees | src/services/leadsApiService.js:463 | corrected: both services make the same choice for every flag, and for the shipped flag both readings pick memory |
| Seqs.FilterIf | src/services/leadsService.js:86-101 | one optional filter step of the in-memory lead and vendor services: the list unchanged when off, exactly the passing entries when on |
| LeadsService.Filtered | src/services/leadsService.js:84-101 | exactly the leads passing the status, assignee and case-insensitive search filters |
| LegacyTypes.OrDefault | src/services/leadsService.js:107-108 | the given page or limit, or the default when missing or zero; the vendor service (vendorsService.js:173-174) uses the same rule |
| LeadsService.IndexOf | src/services/leadsService.js:118 | the first lead with the id, or -1 iff none has it |
| LeadsService.ApplyPatch | src/services/leadsService.js:144-160 | each field the update carries replaces the lead's; the id, activities and timestamps stay |
| LeadsService.ApplyPatchIdempotent | src/services/leadsService.js:144-160 | the same update applied twice is applied once |
| LeadsService.LeadsStore.GetLeads | src/services/leadsService.js:80-113 | every filtered lead with no slicing; the total is their count; page and limit echoed with their defaults |
| LeadsService.LeadsStore.GetLead | src/services/leadsService.js:115-126 | found iff some lead has the id, and then the first one; otherwise `Lead not found` |
| LeadsService.LeadsStore.CreateLead | src/services/leadsService.js:128-142 | the form with the new id, both timestamps and no activity, at the front |
| LeadsService.LeadsStore.UpdateLead | src/services/leadsService.js:144-160 | the patched lead, updated now, replaces the one at the same index; an unknown id fails with `Lead not found` and changes nothing |
| LeadsService.LeadsStore.DeleteLead | src/services/leadsService.js:162-174 | exactly the found lead is removed; an unknown id fails and changes nothing |
| LeadsService.LeadsStore.UpdateLeadStatus | src/services/leadsService.js:176-189 | only the status and update time of that lead change |
| LeadsService.LeadsStore.AssignLead | src/services/leadsService.js:191-204 | only the assignee and update time of that lead change |
| LeadsService.LeadsStore.AddActivity | src/services/leadsService.js:206-224 | the activity, with its id and time, goes to the front of that lead's activities; other leads are untouched |
| LeadsService.UpdateStatusIsPatch | src/services/leadsService.js:144-189 | `updateLeadStatus` is `updateLead` with an update carrying only the status |
| LeadsService.NoFilterReturnsAll | src/services/leadsService.js:84-101 | with no filter set, the whole store is returned |
| VendorsService.Filtered | src/services/vendorsService.js:150-167 | exactly the vendors passing the type, active-flag and case-insensitive search filters |
| VendorsService.IndexOf | src/services/vendorsService.js:184 | the first vendor with the id, or -1 iff none has it |
| VendorsService.ContactIndex | src/services/vendorsService.js:268 | the first contact of a vendor with the id, or -1 iff none has it |
| VendorsService.ApplyPatch | src/services/vendorsService.js:211-227 | each field the update carries replaces the vendor's; the contacts, leads, id and timestamps stay |
| VendorsService.ApplyContactPatch | src/services/vendorsService.js:263-284 | each field the update carries replaces the contact's; its id and owner stay |
| VendorsService.WithContacts | src/services/vendorsService.js:243-304 | only the contact list and the update time of the vendor change |
| VendorsService.VendorsStore.GetVendors | src/services/vendorsService.js:147-179 | every filtered vendor with no slicing; the total is their count |
| VendorsService.VendorsStore.GetVendor | src/services/vendorsService.js:181-192 | found iff some vendor has the id, and then the first one; otherwise `Vendor not found` |
| VendorsService.VendorsStore.CreateVendor | src/services/vendorsService.js:194-209 | the form with the new id, no contact, no lead and both timestamps, at the front |
| VendorsService.VendorsStore.UpdateVendor | src/services/vendorsService.js:211-227 | the patched vendor, updated now, replaces the found one; an unknown id fails with `Vendor not found` and changes nothing |
| VendorsService.VendorsStore.DeleteVendor | src/services/vendorsService.js:229-241 | exactly the found vendor is removed; an unknown id fails and changes nothing |
| VendorsService.VendorsStore.AddContact | src/services/vendorsService.js:243-261 | the contact, with its new id and its owner's id, goes to the end of that vendor's contacts |
| VendorsService.VendorsStore.UpdateContact | src/services/vendorsService.js:263-284 | exactly one contact of that vendor is patched; a missing vendor and a missing contact fail with different messages |
| VendorsService.VendorsStore.DeleteContact | src/services/vendorsService.js:286-304 | exactly the found contact of that vendor is removed; other vendors and contacts are unchanged |
| VendorsService.AddedContactFound | src/services/vendorsService.js:243-261 | after adding, the contact is found by its id at the end of its vendor's list |
| VendorsService.DeleteContactRemovesId | src/services/vendorsService.js:286-304 | deleting a contact whose id is unique under its vendor leaves none with that id |
| VendorsService.InactiveFilterApplies | src/services/vendorsService.js:156-158 | an `isActive: false` query returns only inactive vendors |
| LeadWizard.StepOf | src/components/leads/LeadWizard.jsx:35-78 | every form field belongs to exactly one step before the review step |
| LeadWizard.SetField | src/components/leads/LeadWizard.jsx:129-143 | the named field takes the value and every other field keeps its own |
| LeadWizard.FieldError | src/components/leads/LeadWizard.jsx:98-121 | the apartment, source link, file and notes never fail |
| LeadWizard.FieldErrorMeaning | src/components/leads/LeadWizard.jsx:98-121 | the phone, street number and postal code pass iff their validators accept them; the business name passes iff it is not blank; the source passes iff it is not empty |
| LeadWizard.StepErrors | src/components/leads/LeadWizard.jsx:93-127 | an entry exactly for each field of the step that fails |
| LeadWizard.StepErrorsOtherField | src/components/leads/LeadWizard.jsx:129-143 | changing a field leaves the errors of every other step as they were |
| LeadWizard.FieldErrorOtherField | src/components/leads/LeadWizard.jsx:98-121 | setting one field leaves every other field's error as it was |
| LeadWizard.OptionalStepsPass | src/components/leads/LeadWizard.jsx:35-78 | the step of optional fields and the review step never fail |
| LeadWizard.Wizard.constructor | src/components/leads/LeadWizard.jsx:81-87 | step 0 with the given form or the default request, no error, not submitting |
| LeadWizard.Wizard.ValidateCurrentStep | src/components/leads/LeadWizard.jsx:93-127 | the error map becomes exactly the current step's errors, and the answer is true iff that map is empty |
| LeadWizard.Wizard.HandleInputChange | src/components/leads/LeadWizard.jsx:129-143 | one field changes and only that field's error is cleared; every earlier step still passes |
| LeadWizard.Wizard.HandleFileChange | src/components/leads/LeadWizard.jsx:145-152 | the chosen file is kept, and its name goes into the form when there is one |
| LeadWizard.Wizard.HandleNext | src/components/leads/LeadWizard.jsx:154-159 | one step forward, capped at the review step, only when the current step passes |
| LeadWizard.Wizard.HandlePrevious | src/components/leads/LeadWizard.jsx:161-164 | one step back, never below the first, with no validation |
| LeadWizard.Wizard.HandleSubmit | src/components/leads/LeadWizard.jsx:166-190 | after the current step passes, an edit updates the lead and a new form creates one; a failure records the store's message and stays on the step; never left submitting |
| LeadWizard.ReviewStepFormComplete | src/components/leads/LeadWizard.jsx:154-163 | a form on which every step before the review passes has no failing field |
| VendorWizard.GetSteps | src/components/vendors/VendorWizard.jsx:12-68 | four steps with a lead id, five without, the lead picker first; the review step is always last |
| VendorWizard.GetStepsShift | src/components/vendors/VendorWizard.jsx:12-68 | without a lead id the list is the same steps behind one extra first step |
| VendorWizard.SetField | src/components/vendors/VendorWizard.jsx:318-399 | the named field takes the value and every other field keeps its own |
| VendorWizard.LeadDraft | src/components/vendors/VendorWizard.jsx:150-165 | the lead's id, both names from the business name, the address and phone copied, no e-mail, status ACTIVE |
| VendorWizard.DraftStepValidity | src/components/vendors/VendorWizard.jsx:192-199 | a draft from a lead never passes the contact step, and passes the business step iff the lead's business name is not blank |
| VendorWizard.Wizard.constructor | src/components/vendors/VendorWizard.jsx:74-89 | step 0 with the default vendor request and no lead picked |
| VendorWizard.Wizard.LoadLead | src/components/vendors/VendorWizard.jsx:100-129 | with a lead id, a found lead is picked and the wizard moves to step 1, the contact step; a missing lead records the error and stays |
| VendorWizard.Wizard.FetchLeads | src/components/vendors/VendorWizard.jsx:131-148 | the candidates are the requested page of contacted leads matching the search, all with status CONTACTED |
| VendorWizard.Wizard.HandleLeadSelect | src/components/vendors/VendorWizard.jsx:150-165 | the lead is picked and the form becomes its draft |
| VendorWizard.Wizard.SelectFromList | src/components/vendors/VendorWizard.jsx:236-251 | the lead is picked, the form becomes its draft, and the business step follows |
| VendorWizard.Wizard.SetFormField | src/components/vendors/VendorWizard.jsx:284-399 | an input the current step renders changes that field only, and the steps already passed stay valid |
| VendorWizard.ShownFields | src/components/vendors/VendorWizard.jsx:284-316 | the review step renders no input, since it returns its summary first; every other step renders its own fields |
| VendorWizard.StatusNeverShown | src/components/vendors/VendorWizard.jsx:284-403 | no step of either list renders the status select, so the draft stays ACTIVE |
| VendorWizard.ShownOnOneStepOnly | src/components/vendors/VendorWizard.jsx:12-68 | an input one step renders is required by no other step |
| VendorWizard.StepValidFrame | src/components/vendors/VendorWizard.jsx:192-199 | changing a field a step does not require leaves that step's validity as it was |
| VendorWizard.RequiredFields | src/components/vendors/VendorWizard.jsx:192-199 | the apartment and the status are never required; the contact step requires e-mail and phone, the address step street number, street name and postal code |
| VendorWizard.OtherStepsValid | src/components/vendors/VendorWizard.jsx:192-199 | every step other than business, contact and address requires nothing and is always valid |
| VendorWizard.RequiredAreShown | src/components/vendors/VendorWizard.jsx:12-68 | every required field is one of its own step's fields |
| VendorWizard.Wizard.HandleNext | src/components/vendors/VendorWizard.jsx:167-170 | called only when the current step is valid, as the disabled Next button demands; refuses to leave step 0 while no lead is picked, otherwise one step forward |
| VendorWizard.Wizard.HandlePrevious | src/components/vendors/VendorWizard.jsx:172-176 | one step back only when past the first |
| VendorWizard.Wizard.HandleSubmit | src/components/vendors/VendorWizard.jsx:178-190 | from the review step, the form is sent to `createVendor`, whose new vendor goes to the front of the store; the form sent passes the contact and address steps (and the business step when the lead was picked from the list), and the vendor is ACTIVE |
| VendorWizard.ConvertedVendorKeepsLead | src/components/vendors/VendorWizard.jsx:150-190 | a vendor created from a picked lead records that lead and its business name |
| LeadValidationModal.Payload | src/components/leads/LeadValidationModal.jsx:17-25 | the decision with the trimmed notes, absent iff the notes are blank |
| LeadValidationModal.ConfirmedDenialHasReason | src/components/leads/LeadValidationModal.jsx:159-163 | a denial that gets past the button carries its trimmed reason, and the stored lead is denied with that reason |
| LeadValidationModal.BlankNotesKeepOldNotes | src/components/leads/LeadValidationModal.jsx:22-25 | blank notes leave the lead's earlier notes in place, whatever the decision |
| LeadValidationModal.Modal.constructor | src/components/leads/LeadValidationModal.jsx:12-15 | no decision, empty notes, not submitting |
| LeadValidationModal.Modal.Approve | src/components/leads/LeadValidationModal.jsx:36-38 | the decision becomes APPROVED |
| LeadValidationModal.Modal.Deny | src/components/leads/LeadValidationModal.jsx:40-42 | the decision becomes DENIED |
| LeadValidationModal.Modal.ChangeDecision | src/components/leads/LeadValidationModal.jsx:113 | the decision is cleared |
| LeadValidationModal.Modal.SetNotes | src/components/leads/LeadValidationModal.jsx:130 | the notes become the typed text |
| LeadValidationModal.Modal.HandleValidate | src/components/leads/LeadValidationModal.jsx:17-34 | the decision is sent with the trimmed notes, without re-checking the denial rule; the store's answer or the error is kept; never left submitting |
| LeadValidationModal.Modal.HandleConfirm | src/components/leads/LeadValidationModal.jsx:44-48 | submits only when a decision is set; otherwise nothing changes |
| LeadValidationModal.ConfirmEnabledIff | src/components/leads/LeadValidationModal.jsx:159-163 | the confirm button is enabled iff a decision is set, nothing is in flight, and a denial has non-blank notes |
| LeadContactModal.SetField | src/components/leads/LeadContactModal.jsx:18-23 | only the named field changes |
| LeadContactModal.Placeholder | src/components/leads/LeadContactModal.jsx:55-68 | the three known methods have their own text; every other method gets `Enter contact details` |
| LeadContactModal.PlaceholdersDistinct | src/components/leads/LeadContactModal.jsx:55-68 | the three known methods' placeholders differ from one another |
| LeadContactModal.DefaultFormNeedsOnlyDetails | src/components/leads/LeadContactModal.jsx:14 | the fresh form is a phone call showing the extension, and it can be sent iff the details are filled in, white space counting |
| LeadContactModal.HiddenExtensionKept | src/components/leads/LeadContactModal.jsx:142-152 | an extension typed on a phone call is still sent after switching away from the phone |
| LeadContactModal.Modal.constructor | src/components/leads/LeadContactModal.jsx:14 | the form starts as the default contact request |
| LeadContactModal.Modal.HandleInputChange | src/components/leads/LeadContactModal.jsx:18-23 | only the named field of the form changes |
| LeadContactModal.Modal.HandleSubmit | src/components/leads/LeadContactModal.jsx:25-38 | called only when the submit button is enabled; the whole form goes to `initiateContact`; the updated lead, which records a non-empty method and details, is returned or the error kept; never left submitting |
| LeadDetailView.ParseBackendDate | src/components/leads/LeadDetailView.jsx:45-56 | nothing for a non-array; an invalid date for a short array; otherwise the fields with a zero-based month and milliseconds `floor(nanoseconds / 1000000)` |
| LeadDetailView.GetInitials | src/components/leads/LeadDetailView.jsx:121-128 | at most two characters |
| LeadDetailView.InitialsOfManyWords | src/components/leads/LeadDetailView.jsx:121-128 | any name of two or more words separated by single spaces has the upper-cased first letters of its first two words as its initials |
| Strings.SplitJoinPieces | src/components/leads/LeadDetailView.jsx:122-123 | pieces free of the separator, joined by it, split back into exactly those pieces |
| LeadDetailView.InitialsOfWords | src/components/leads/LeadDetailView.jsx:121-128 | one word gives its upper-cased first letter, and two words give both |
| LeadDetailView.QuickActionsExclusive | src/components/leads/LeadDetailView.jsx:428-457 | at most one of Validate, Initiate Contact and Convert to Vendor is offered |
| LeadDetailView.ContactTabIgnoresStatus | src/components/leads/LeadDetailView.jsx:295-340 | the contact tab offers contact for a pending or denied lead with no contact, which the quick actions do not |
| LeadDetailView.OfferedActionsAdvance | src/components/leads/LeadDetailView.jsx:428-457 | approving an offered pending lead makes contact the offered action, and contacting it makes conversion the offered action |
| LeadDetailView.ConvertPath | src/components/leads/LeadDetailView.jsx:448-457 | the vendor wizard's address with the lead's id |
| LeadDetailView.ScreenOf | src/components/leads/LeadDetailView.jsx:134-178 | the 403 view iff the error is `Forbidden`; any other error shows its message; details only when loaded with no error |
| LeadDetailView.MissingLeadShowsMessage | src/components/leads/LeadDetailView.jsx:145-166 | a lead missing from the store shows the store's message, not the 403 view |
| LeadDetailView.Page.constructor | src/components/leads/LeadDetailView.jsx:61-66 | loading, no lead, no error, both dialogs closed |
| LeadDetailView.Page.LoadLead | src/components/leads/LeadDetailView.jsx:71-81 | the found lead is shown, or the store's message kept; never left loading |
| LeadDetailView.Page.OpenValidation | src/components/leads/LeadDetailView.jsx:428-436 | the validation dialog opens for a lead offered validation |
| LeadDetailView.Page.OpenContact | src/components/leads/LeadDetailView.jsx:295-340 | the contact dialog opens for a lead offered contact |
| LeadDetailView.Page.HandleContactSuccess | src/components/leads/LeadDetailView.jsx:83-86 | the returned lead is shown and the contact dialog closed |
| LeadDetailView.Page.HandleValidationSuccess | src/components/leads/LeadDetailView.jsx:88-91 | the returned lead is shown and the validation dialog closed |
| LeadDetailView.Page.HandleDelete | src/components/leads/LeadDetailView.jsx:93-107 | without confirmation nothing changes; with it, the lead is removed and the page navigates away, or the store's message is kept |
| LeadsList.RoleHoleAdmitsRoleless | src/pages/leads/LeadsList.jsx:74-77 | as written, a signed-in user with no role name may create, edit and delete leads but not validate them |
| LeadsList.RoleListsWithoutHole | src/pages/leads/LeadsList.jsx:74-77 | corrected: without the holes a missing role name is refused, and every named role gets the same answer as before |
| LeadsList.PermissionMembership | src/pages/leads/LeadsList.jsx:76-77 | SALES_AGENT may delete and `sales_rep` may not; validation is allowed iff the role is PLATFORM_ADMIN, SALES_MANAGER, `admin` or `manager` |
| LeadsList.Count | src/pages/leads/LeadsList.jsx:153-180 | a count of leads is never more than the leads loaded |
| LeadsList.StatsWithinPage | src/pages/leads/LeadsList.jsx:153-180 | the total is `totalElements`, and the four counters add up to the loaded leads minus the ONBOARDED, DONE and unknown ones |
| LeadsList.Page.GetStatusStats | src/pages/leads/LeadsList.jsx:153-180 | the loop's counters are the status counts over the loaded page |
| LeadsList.FilteredLeads | src/pages/leads/LeadsList.jsx:184-193 | exactly the leads matching the search and the source filter, in order |
| LeadsList.FilteredLeadsAll | src/pages/leads/LeadsList.jsx:184-193 | an empty search with source `all` keeps every lead |
| LeadsList.DisplayedRangeMatchesPage | src/pages/leads/LeadsList.jsx:499 | the range shown for a page inside the list counts exactly the leads the store returns for it |
| LeadsList.SortValueRoundTrip | src/pages/leads/LeadsList.jsx:327-331 | splitting `field-direction` at `-` gives back the field and the direction |
| LeadsList.Page.constructor | src/pages/leads/LeadsList.jsx:61-70 | no leads, status filter `all`, page 0 |
| LeadsList.Page.LoadLeads | src/pages/leads/LeadsList.jsx:95-121 | with filter `all` the page of `getLeads`, otherwise the page of `getLeadsByStatus`; the page's leads and totals are stored |
| LeadsList.Page.PreviousPage | src/pages/leads/LeadsList.jsx:505 | one page back, never below 0 |
| LeadsList.Page.NextPage | src/pages/leads/LeadsList.jsx:516 | one page forward, never past the last page |
| LeadsApproval.PendingPageIsPending | src/pages/leads/LeadsApproval.jsx:20-39 | for every role the fetched queue holds at most ten leads, all from the store and all PENDING, and all of them when there are at most ten |
| LeadsApproval.StoredPageNeverRenders | src/pages/leads/LeadsApproval.jsx:32 | as written, once the fetch succeeds the list render crashes: the stored value is the page object, not its array |
| LeadsApproval.Render | src/pages/leads/LeadsApproval.jsx:58-67 | corrected: the same screens as written for an array, never a crash, cards exactly for a non-empty queue |
| LeadsApproval.FetchedQueueRenders | src/pages/leads/LeadsApproval.jsx:32 | corrected: a non-empty fetched queue renders as cards of those leads |
| LeadsApproval.DenialWithoutReasonAccepted | src/pages/leads/LeadsApproval.jsx:46-49 | a denial with no note is sent and stored as DENIED, keeping the old notes |
| LeadsApproval.WithoutLead | src/pages/leads/LeadsApproval.jsx:50-51 | exactly the leads without the id are kept |
| LeadsApproval.WithoutLeadIsRemoveAt | src/pages/leads/LeadsApproval.jsx:50-51 | with unique ids, dropping a lead by id removes exactly its entry and keeps the others in order |
| LeadsApproval.OnlyPressedButtonDisabled | src/pages/leads/LeadsApproval.jsx:101-114 | while an action is in flight, a decision button is disabled iff it is the one pressed: the same lead and the same decision |
| LeadsApproval.Approval.constructor | src/pages/leads/LeadsApproval.jsx:13-17 | an empty queue, loading, no action in flight, no notes, no error |
| LeadsApproval.Approval.FetchPendingLeads | src/pages/leads/LeadsApproval.jsx:20-39 | corrected: the queue is the fetched page's content; loading ends |
| LeadsApproval.Approval.SetNote | src/pages/leads/LeadsApproval.jsx:96 | one lead's note changes and every other lead's note stays |
| LeadsApproval.Approval.BeginAction | src/pages/leads/LeadsApproval.jsx:42-45 | the in-flight key is the lead's id followed by the decision, and the error is cleared |
| LeadsApproval.Approval.CompleteAction | src/pages/leads/LeadsApproval.jsx:46-56 | on success the lead leaves the queue and the others stay in order; on failure the queue stays and the error is set; nothing is in flight afterwards |
| Sidebar.VisibleNavigation | src/components/layout/Sidebar.jsx:69-71 | exactly the items whose roles include the user's role name, in declared order |
| Sidebar.VisibleIffRole | src/components/layout/Sidebar.jsx:69-71 | an item is shown iff the user has one of its roles |
| Sidebar.SettingsVisibleIff | src/components/layout/Sidebar.jsx:55-60 | Settings is shown iff the role is PLATFORM_ADMIN or `admin` |
| Sidebar.ReportsAndApprovalVisibleIff | src/components/layout/Sidebar.jsx:49-66 | Reports is shown iff the role is PLATFORM_ADMIN, `admin` or `manager`; Approve Leads exactly when Reports is; never for SALES_MANAGER |
| Sidebar.PlatformAdminSeesAll | src/components/layout/Sidebar.jsx:23-71 | PLATFORM_ADMIN sees every item |
| Sidebar.ActiveIff | src/components/layout/Sidebar.jsx:99-100 | the dashboard link is active only on its own path; any other link is active on every path it prefixes |
| Sidebar.ApprovalPathHighlightsTwo | src/components/layout/Sidebar.jsx:99-100 | on `/leads/approval` exactly Leads and Approve Leads are highlighted |
| Sidebar.FirstLetter | src/components/layout/Sidebar.jsx:129 | at most one character, present iff the name is present and not empty |
| Sidebar.UserInitials | src/components/layout/Sidebar.jsx:129 | at most two characters, starting with the first name's letter and ending with the last name's letter when those are present |
| Sidebar.RoleCaption | src/components/layout/Sidebar.jsx:137 | a caption exactly when there is a role name |
| Sidebar.CaptionReplacesFirstUnderscore | src/components/layout/Sidebar.jsx:137 | only the first underscore becomes a space |
| Sidebar.SalesManagerCaption | src/components/layout/Sidebar.jsx:137 | SALES_MANAGER reads `SALES MANAGER` |
| Sidebar.SalesRepCaption | src/components/layout/Sidebar.jsx:137 | `sales_rep` reads `sales rep` |
| VendorsList.VendorPermissions | src/pages/vendors/VendorsList.jsx:87-88 | managing iff `admin` or `manager`; editing iff managing or `sales_rep`; the canonical roles get neither |
| VendorsList.ShowsDeleteIff | src/pages/vendors/VendorsList.jsx:248-273 | Delete is shown iff the user may manage vendors, and then New Vendor is shown too |
| VendorsList.VendorTypeBadge | src/pages/vendors/VendorsList.jsx:64-74 | the four vendor types map to fixed caption and variant pairs; any other type is its own caption with variant `secondary` |
| VendorsList.BadgeVariants | src/pages/vendors/VendorsList.jsx:64-74 | different vendor types get different variants, and only the distributor shares `secondary` with the fallback |
| VendorsList.ClearedFiltersListAll | src/pages/vendors/VendorsList.jsx:48-62 | with the search and type filter cleared, every vendor is listed |
| VendorsList.ListedIff | src/pages/vendors/VendorsList.jsx:48-62 | a vendor is listed iff it matches the type filter when one is set, and the search when one is typed |
| VendorsList.EmptyHint | src/pages/vendors/VendorsList.jsx:153-155 | the hint to adjust filters is shown iff a search or a type filter is set |
| VendorsList.Page.constructor | src/pages/vendors/VendorsList.jsx:39-42 | no vendors, loading, no search, no type filter |
| VendorsList.Page.LoadVendors | src/pages/vendors/VendorsList.jsx:48-62 | the list is the store's vendors passing the page's filters; loading ends |
| VendorsList.Page.HandleDeleteVendor | src/pages/vendors/VendorsList.jsx:76-85 | without confirmation, or for an unknown id, nothing changes; otherwise exactly that vendor leaves the store and the list is reloaded |

## Left out

- Network access: the server-backed services, the axios instances and their interceptors, the 401 redirect and the login service's network call. The login answer is a parameter of `AuthContext.AuthProvider.Login`.
- `extractResponseData`: it is reached only from the server-backed services, which are left out, and it returns `response.data` unchanged.
- Browser APIs: `FormData` and `Blob` construction, file previews and downloads, `window.confirm` (its answer is a parameter of the delete handlers) and `window.open`.
- `localStorage` persistence of the token and the user, and the session restored from it on start.
- Timers, `async`/`await` and in-flight ordering. Every store call is a synchronous method that returns or fails. The mock delays are not modelled.
- Identifiers and timestamps from `Date.now()` and `new Date().toISOString()` are parameters. Where the source calls the clock twice for one record, the model uses one value.
- Floating point, locale and dates: the wizard's progress percentage, currency and date formatting and `toLocaleDateString`. `parseBackendDate` is modelled as the conversion from the array to the constructor's fields, without JavaScript `Date` normalisation.
- `URLSearchParams` percent-encoding: the query string is the ordered list of key and value pairs.
- Rendering: JSX markup, styling, icons and the CSS `capitalize` applied to the role caption.
- Case mapping is ASCII-only. White space is JavaScript's full `\s` set (`Strings.IsSpace`): the ASCII spaces, the no-break space, U+1680, U+2000 to U+200A, U+2028, U+2029, U+202F, U+205F, U+3000 and U+FEFF.
- `parseInt` on ids: the in-memory lead and vendor stores hold numeric ids, and the ids passed in are already numbers.
- A field explicitly set to `undefined` in an update: the model's updates carry a field or omit it.
- `Object.entries` lists integer-like keys first, in ascending order, before the others in insertion order. `ApiClient.Entries` keeps insertion order only, which is the same for the non-numeric keys every caller passes.
- `AuthContext.RoleValue`: a role object whose `name` is `null` is not expressible; `RoleObject(None)` stands for an absent name, which reads as `undefined`. So `roleName` can be absent in the model but never `null`, which `role.name` yields in JavaScript for such an object (src/contexts/AuthContext.jsx:14).
- The address and audit fields of the API lead that only pass through the spread merges unchanged: `city`, `province`, `country`, `formattedAddress`, `addedBy`, `addedByName`, `addedByManager`, `lastModifiedBy`, `lastModifiedByName`, `assignedToFirstName` and `assignedToLastName` of the mock leads in `src/services/leadsApiService.js`. No modelled operation reads or writes them, so `ApiTypes.Lead` has no such fields.
- The `attachments` list of the legacy lead record (src/types/index.js:67, and the mock leads of `src/services/leadsService.js`): no modelled operation reads or writes it, so `LegacyTypes.Lead` has no such field.
- VendorsApiService.ApplyPatch, VendorsService.ApplyPatch, LeadsService.ApplyPatch: the update types carry no `id` (nor `vendorUniqueId`, `createdAt` or the lists), so the model's ids always stay. In JavaScript, `{ ...old, ...data }` would overwrite any of those the update carries. The one shipped caller that edits a vendor passes the same values back, so nothing is lost there.
- The legacy vendor store's `isActive` filter is modelled as given: it is applied whenever the parameter is defined, including `false`.
- The HTML `required` attributes of the wizard inputs: only the code's own checks are modelled.
- The lead list's sort choice reaches the query, but the in-memory store ignores `sortBy` and `direction`. `LeadsList.SplitSort` models only the split.
- The fetch-error branches of the lead list, the approval queue and the vendor wizard's candidate list are not modelled. The in-memory stores never fail a list request, so those branches cannot be reached.
- `VendorsList.VendorTypeBadge`: keys inherited from `Object.prototype`, such as `constructor`, are not modelled. They would select an inherited member instead of the fallback.
- `LeadsApproval.Approval.BeginAction`, `LeadsApproval.Approval.CompleteAction`: `handleAction` runs across an `await`, so it is modelled as the state before the call and the state after it.
- The presentation-only files are not part of this model: `src/pages/Dashboard.jsx` (fixed numbers), `src/components/auth/LoginForm.jsx`, `src/components/vendors/EditVendorForm.jsx`, `src/components/vendors/VendorDetailView.jsx`, `src/pages/leads/AddLead.jsx`, `src/pages/leads/EditLead.jsx` and `src/pages/vendors/AddVendor.jsx`.
- The route table of `src/App.jsx` is data only, and the component that enforces it is not part of this model.
- An edited lead's fields outside the wizard's form are not carried back to `updateLead`.

## Findings

| source | as written | input that shows it | evidently intended | confidence | as-written member | corrected member |
|---|---|---|---|---|---|---|
| src/utils/formatters.js:40-67 | `formatPhoneNumber` strips a leading `1` only from eleven digits and re-reads the `+1` it writes itself whenever the field changes | typing `5`, `5`, `5` shows `+1 (5`, then `+1 (155)`, then `+1 (115)` | the typed digits appear in order after `+1`, and formatting a formatted number changes nothing | high, not executed | Formatters.TypedPhoneDigitsLost | Formatters.TypedPhoneDigitKept |
| src/services/vendorsApiService.js:265 | the vendor service tests the flag's truthiness, while the lead service compares it with `'true'` | the flag `'false'` sends leads to the server but keeps vendors in memory | both services switch on the same comparison | high, not executed | VendorsApiService.MockSwitchDisagrees | VendorsApiService.MockSwitchAgrees |
| src/pages/leads/LeadsList.jsx:74-76 | the role lists for creating, editing and deleting leads contain an empty slot, which `includes` reads as `undefined` | a signed-in user with no role name passes all three checks | only the listed roles pass | high, not executed | LeadsList.RoleHoleAdmitsRoleless | LeadsList.RoleListsWithoutHole |
| src/pages/leads/LeadsApproval.jsx:32 | the whole page object returned by the service is stored as the pending list, and the render then calls `.map` on it | any successful fetch: the page object has no `map`, and the render throws | store the page's `content` array | high, not executed | LeadsApproval.StoredPageNeverRenders | LeadsApproval.FetchedQueueRenders |
