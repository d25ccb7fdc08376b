# Profile and login routes of a social-profile REST backend, in Dafny

This project models the two route files that hold the backend's logic:

- `routes/api/profile.js` manages one profile per user. It validates a create/update request, builds a partial field-set from the request body, and either merges that field-set into the stored profile (`$set`) or creates a new profile. It prepends experience and education entries and removes them again by index. It also answers "There is no profile for this user" on reads and deletes a profile.
- `routes/api/auth.js` decides a login (user lookup, then password comparison, then token signing) and returns the current user without the password field.

Files:

- `js_builtins.dfy` (module `JsBuiltins`) covers the JavaScript behaviour the routes depend on: truthiness of a body string, `split` on a comma, `trim`, `indexOf`, and `splice(start, 1)` with JavaScript's handling of a negative start.
- `profile_model.dfy` (module `ProfileModel`) holds the profile document, the request bodies, validation, the field-set, the `$set` merge, profile creation, and the entry-list operations, all as values. It also holds the corrected removal described under "## Findings".
- `profile_store.dfy` (module `ProfileRoutes`) holds class `ProfileStore`. Its field `profiles: map<UserId, Profile>` is the profile collection, and each route is one method on it: the two reads leave the map as it is, every other route changes it.
- `auth_routes.dfy` (module `AuthRoutes`) holds the login decision and the password-free projection, as functions.

The user id that the token middleware attaches to a request is an input. So is the id the database gives a new experience or education entry. The bcrypt comparison is a function parameter `matches`. A signed JWT is the value `Token(payload, secret, expiresIn)`. The configured `jwtSecret` is a parameter.

A body value is either `undefined` (`None`) or a string. A string is truthy when it is non-empty. This is also what the validator's `not().isEmpty()` test accepts.

Behaviours the model keeps as the code has them:

- Login answers 400 "user not exist" for an unknown email and 403 "password wrong" for a bad password. The message is not the same for both.
- Removing an entry with an unknown id removes the last entry. It is neither a no-op nor an error.
- Experience removal looks the id up among the entry objects, not among their ids.

## Model

| member | source | states |
|---|---|---|
| `JsBuiltins.TruthyOnly` | routes/api/profile.js:68-73 | a key is set exactly when the body value is truthy, it is then the body value, and it is never the empty string |
| `JsBuiltins.Split` | routes/api/profile.js:75 | splitting on `,` gives one more piece than there are commas, no piece holds a comma, and joining the pieces with `,` gives back the input (empty pieces are kept) |
| `JsBuiltins.CountIsMultiplicity` | routes/api/profile.js:75 | the comma count that sizes the skills list is the number of times the comma occurs in the string |
| `JsBuiltins.SplitJoin` | routes/api/profile.js:75 | splitting undoes joining when no piece holds the separator |
| `JsBuiltins.Trim` | routes/api/profile.js:75 | the result is the slice of the input between its leading and trailing whitespace runs, everything outside it is JavaScript whitespace, and the result neither starts nor ends with whitespace |
| `JsBuiltins.TrimIdempotent` | routes/api/profile.js:75 | trimming twice equals trimming once |
| `JsBuiltins.TrimSpacePadding` | routes/api/profile.js:75 | one space on both sides, or on the left only, of a word without outer whitespace is trimmed away and the word is kept |
| `JsBuiltins.IndexOf` | routes/api/profile.js:269 | the result is -1 exactly when the value is absent; otherwise it is the first position holding the value |
| `JsBuiltins.SpliceOne` | routes/api/profile.js:270 | a start inside the list removes exactly that element and keeps the others in order; a negative start counts back from the end, so -1 on a non-empty list removes the last element, and a start before the beginning removes the first; a start past the end and an empty list change nothing; at most one element is removed |
| `ProfileModel.Required` | routes/api/profile.js:39-40 | a field check yields no error exactly when the value is truthy, and otherwise exactly one error with its param and message |
| `ProfileModel.CheckAll` | routes/api/profile.js:38-47 | every error of a validator array is the error of one of its declared checks |
| `ProfileModel.CheckAllCount` | routes/api/profile.js:38-47 | a validator array yields exactly one error per failing value |
| `ProfileModel.CheckAllReports` | routes/api/profile.js:38-47 | with distinct checks, a check's error is reported exactly when its value is undefined or empty |
| `ProfileModel.CheckAllOrdered` | routes/api/profile.js:38-47 | with distinct checks, the errors come in the order the checks are declared |
| `ProfileModel.ProfileErrors` | routes/api/profile.js:39-47 | the request is rejected exactly when `status` or `skills` is missing or empty; each error is present exactly when its field fails; there is one error per failing field, in declaration order (status before skills) |
| `ProfileModel.ExperienceErrors` | routes/api/profile.js:168-177 | an experience is accepted exactly when title, company and from are all truthy; each error is present exactly when its field fails; there is one error per failing field, in declaration order |
| `ProfileModel.EducationErrors` | routes/api/profile.js:226-236 | an education entry is accepted exactly when school, fieldofstudy, degree and from are all truthy; each error is present exactly when its field fails; there is one error per failing field, in declaration order |
| `ProfileModel.ParseSkills` | routes/api/profile.js:74-76 | the skills list has exactly as many elements as there are commas plus one, and element i is the trimmed i-th comma-separated piece |
| `ProfileModel.ParseSkillsOfJoin` | routes/api/profile.js:74-76 | parsing comma-joined pieces that hold no comma gives one skill per piece, each the trimmed piece |
| `ProfileModel.SkillsExample` | routes/api/profile.js:75 | input shaped like "js, node , go" (three words without commas or outer whitespace, padded by spaces around the commas) becomes exactly the three words |
| `ProfileModel.SkillsKeepEmptyPieces` | routes/api/profile.js:75 | input shaped like "a,,b" becomes [a, "", b]: empty pieces are not filtered out |
| `ProfileModel.SocialOf` | routes/api/profile.js:78-83 | the new social object holds exactly the truthy links of the body, each with its body value |
| `ProfileModel.FieldSetOf` | routes/api/profile.js:66-83 | the field-set's user is always the authenticated id; each scalar and `skills` is present exactly when its body value is truthy and then carries that value (skills parsed); social is the fresh object |
| `ProfileModel.BodyUserIgnored` | routes/api/profile.js:48-67 | the body's own `user` value has no effect on the field-set |
| `ProfileModel.ValidatedFieldSet` | routes/api/profile.js:39-76 | after validation passes, the field-set always carries the posted status and a skills list with commas-plus-one elements |
| `ProfileModel.ApplySet` | routes/api/profile.js:88-92 | for every key of the profile, the merged value is the field-set's value when the key is in the field-set, and the stored value otherwise |
| `ProfileModel.NewProfile` | routes/api/profile.js:95-96 | a created profile has the field-set's value under each of its keys and the default (absent, or the empty list) under every other key |
| `ProfileModel.ApplySetIdempotent` | routes/api/profile.js:88-92 | applying the same update twice gives the same profile as applying it once |
| `ProfileModel.SocialReplaced` | routes/api/profile.js:78-92 | after an update the stored social object is exactly the request's, so a stored link that is not resent is gone |
| `ProfileModel.PartialMergeKeepsCompany` | routes/api/profile.js:68-92 | an update without a truthy company keeps the stored company |
| `ProfileModel.CreateThenUpdate` | routes/api/profile.js:68-97 | a profile created with a company and then updated without one keeps the company, takes the update's `social`, and has no entries yet |
| `ProfileModel.Upsert` | routes/api/profile.js:86-97 | a user with a profile gets the merge and keeps both entry lists; a user without one gets a new profile; the result belongs to the user |
| `ProfileModel.NewExperience` | routes/api/profile.js:178-187 | the new experience entry carries the given id and each posted field unchanged |
| `ProfileModel.NewEducation` | routes/api/profile.js:237-246 | the new education entry carries the given id and each posted field unchanged |
| `ProfileModel.Unshift` | routes/api/profile.js:190 | prepending grows the list by one, puts the entry first and keeps the old list, in order, after it |
| `ProfileModel.UnshiftTwice` | routes/api/profile.js:249 | adding E1 and then E2 yields [E2, E1] followed by the earlier entries |
| `ProfileModel.EntryIds` | routes/api/profile.js:267-268 | the id list has one id per entry, the i-th being the i-th entry's id |
| `ProfileModel.ExperienceIndex` | routes/api/profile.js:207 | the lookup is -1 exactly when no entry object loosely equals the id string; otherwise it names such an entry |
| `ProfileModel.EducationIndex` | routes/api/profile.js:267-269 | the lookup is -1 exactly when no entry has the id; otherwise it is the first entry with that id |
| `ProfileModel.ExperienceAfterDelete` | routes/api/profile.js:207-208 | experience removal as written removes the last entry whatever id is asked for, and leaves an empty list empty |
| `ProfileModel.EducationAfterDelete` | routes/api/profile.js:267-270 | education removal as written takes exactly one entry, one of the list's own, from a non-empty list whatever id is asked for, and leaves an empty list empty |
| `ProfileModel.EducationDeleteFound` | routes/api/profile.js:267-270 | removing a present id removes exactly the first entry with that id and keeps the others in order |
| `ProfileModel.EducationDeleteMissing` | routes/api/profile.js:267-270 | removing an absent id removes the last entry, and an empty list stays empty |
| `ProfileModel.EducationDeleteUnknownIdExample` | routes/api/profile.js:267-270 | with two entries and an id neither has, removal leaves only the first entry: the second is lost |
| `ProfileModel.RemoveById` | routes/api/profile.js:263-277 | corrected removal: an absent id leaves the list unchanged; a present id removes exactly its first entry |
| `ProfileModel.RemoveByIdCorrect` | routes/api/profile.js:263-277 | with distinct ids, corrected removal leaves no entry with that id and removes one entry exactly when the id was present |
| `ProfileModel.RemoveExperienceByIdCorrect` | routes/api/profile.js:204-215 | corrected experience removal removes the entry with the asked id and leaves the list unchanged for an unknown id |
| `ProfileRoutes.StatusCode` | routes/api/profile.js:20-26 | the status is 200 for a profile or "User deleted", 400 for validation errors or a missing profile, and 500 for a server error |
| `ProfileRoutes.BuildProfileFields` | routes/api/profile.js:66-83 | the field-set built by successive conditional assignments is `FieldSetOf` of the user and body |
| `ProfileRoutes.BuildSocial` | routes/api/profile.js:78-83 | the social object built from `{}` by conditional assignments is `SocialOf` of the body |
| `ProfileRoutes.ProfileStore.GetMine` | routes/api/profile.js:14-28 | answers the user's own profile, or the 400 "no profile" message as JSON when there is none |
| `ProfileRoutes.ProfileStore.GetByUser` | routes/api/profile.js:122-130 | answers the profile of the given user, or the 400 "no profile" message as text when there is none |
| `ProfileRoutes.ProfileStore.CreateOrUpdate` | routes/api/profile.js:34-101 | an invalid request answers the error list and leaves the store untouched; a valid one stores the upsert under the user, keeps every other user's profile, and leaves exactly one profile for the user |
| `ProfileRoutes.ProfileStore.Delete` | routes/api/profile.js:144-157 | removes the user's profile if there is one and answers "User deleted" either way |
| `ProfileRoutes.ProfileStore.AddExperience` | routes/api/profile.js:163-198 | validation first (store untouched on error); with no profile a server error and no change; otherwise the new entry is prepended to the user's experience list and nothing else changes |
| `ProfileRoutes.ProfileStore.DeleteExperience` | routes/api/profile.js:204-215 | with no profile a server error and no change; otherwise the experience list becomes `ExperienceAfterDelete` of it, the splice at the index found among the entry objects, and nothing else changes |
| `ProfileRoutes.ProfileStore.AddEducation` | routes/api/profile.js:221-257 | validation first (store untouched on error); with no profile a server error and no change; otherwise the new entry is prepended to the user's education list |
| `ProfileRoutes.ProfileStore.DeleteEducation` | routes/api/profile.js:263-277 | with no profile a server error and no change; otherwise the education list becomes `EducationAfterDelete` of it, the splice at the index found among the entry ids, and nothing else changes |
| `ProfileRoutes.UpdateScenario` | routes/api/profile.js:34-101 | through the store: a company posted at creation survives an update that leaves it out, the update's `social` is stored, and after DELETE the profile read answers "no profile" |
| `AuthRoutes.StatusCode` | routes/api/auth.js:27-48 | 400 exactly for "user not exist", 403 exactly for "password wrong", 200 exactly for an issued token, 500 exactly for a failure in the comparison |
| `AuthRoutes.FindByEmail` | routes/api/auth.js:26 | no user is found exactly when no user has the email; a found user is stored and has that email |
| `AuthRoutes.FindById` | routes/api/auth.js:15 | no user is found exactly when no user has the id; a found user is stored and has that id |
| `AuthRoutes.Login` | routes/api/auth.js:23-50 | "user not exist" exactly when the email is unknown; "password wrong" exactly when the user exists and the comparison fails; a token exactly when the user exists and the comparison succeeds, with payload `{user: {id}}` of that user, the configured secret and an expiry of 360000 |
| `AuthRoutes.UnknownEmailSkipsComparison` | routes/api/auth.js:26-32 | with an unknown email the outcome does not depend on the password comparison at all |
| `AuthRoutes.IssuedTokenNamesMatchingUser` | routes/api/auth.js:26-41 | an issued token names a stored user with that email whose hash matches the password, and is signed with the secret for 360000 seconds |
| `AuthRoutes.WithoutPassword` | routes/api/auth.js:15 | the projection keeps the id and every field except `password`, with the same values |
| `AuthRoutes.CurrentUser` | routes/api/auth.js:13-21 | answers nothing exactly when no user has the id; otherwise that user's record without the password field |

## Left out

- The GitHub repository proxy (routes/api/profile.js:283-306) is left out. It is an outbound HTTP call whose answer depends on a remote service.
- GET /api/profile (routes/api/profile.js:108-116) is left out. It returns the whole collection, order chosen by the database, and makes no decision.
- `populate("user", ["name", "avatar"])` on the reads is left out. The model returns the stored profile without the joined user fields.
- Removing the user record on DELETE /api/profile (routes/api/profile.js:151) is left out. Its effect depends on a user schema that is not part of this model.
- Cast errors are left out: the `error.kind == "ObjectId"` branch and its double response (routes/api/profile.js:133-136).
- Database failures are left out: the store in the model never fails. So are the missing response in the create/update catch (routes/api/profile.js:98-100) and the un-awaited save of the education add (routes/api/profile.js:250).
- Console logging is left out.
- A storage failure during create/update sends no response at all, because the catch block only logs. The model has no storage failures, so it does not show this.
- Each validator error is kept as a `FieldError` with only its `param` and `msg`. The `value` and `location` fields that `errors.array()` also puts in the 400 body are not modelled.
- The token middleware `middleware/auth` is not part of this model. The authenticated user id is an input.
- bcrypt hashing and comparison are left out. The comparison is the parameter `matches`.
- JWT signing and verification (RFC 7519, with `expiresIn` becoming the `exp` claim of section 4.1.4) are left out. They are kept as the `Token` value. An error from inside the signing callback (routes/api/auth.js:42) is left out.
- `AuthRoutes.Login` answers 500 for a missing body password or a stored user without a hash, because bcrypt rejects a non-string argument. It does not model `findOne` with an undefined email: the email is always a string.
- `AuthRoutes.FindByEmail` and `AuthRoutes.FindById` return the first match in the order of the user sequence, which stands for the database's natural order.
- Request body values are modelled as absent or strings only. JSON numbers, booleans and arrays are not modelled, including a non-string `skills`, on which `split` would throw.
- Validation reads body values only. The validator's `check` also looks at query, cookie and header values of the same name, which is not modelled.
- `ProfileModel.EntryLooseEqualsId` is always false. It stands for comparing an experience subdocument with `==` to the id string, which compares the document's inspected rendering to the string. A path parameter that spelled out an entire rendered document is not modelled.
- Schema defaults other than empty lists and absent scalars are not modelled (for example a `date` field), and neither is the profile's own database id.
- Two requests racing on the same profile are not modelled: each route is one atomic step on the store.

## Findings

| source | as written | input that shows it | evidently intended | confidence | as-written member | corrected member |
|---|---|---|---|---|---|---|
| routes/api/profile.js:207-208 | the experience index is looked up among the entry objects, so no entry ever matches the id string; the index is -1 and `splice(-1, 1)` removes the last entry | a profile with experiences whose ids are "a" and "b"; deleting "a" removes the entry "b" | remove the entry whose id is the one asked for | not executed; high, the lookup compares objects with a string | `ProfileModel.ExperienceAfterDelete` | `ProfileModel.RemoveExperienceByIdCorrect` |
| routes/api/profile.js:267-270 | an id that no education entry has gives index -1, and `splice(-1, 1)` removes the last entry | two education entries with ids "a" and "b"; deleting "c" removes the entry "b" | an unknown id leaves the list unchanged | not executed; high | `ProfileModel.EducationDeleteUnknownIdExample` | `ProfileModel.RemoveByIdCorrect` |

The store methods `DeleteExperience` and `DeleteEducation` keep the behaviour as written, because they model the deployed routes. The corrected removal `ProfileModel.RemoveById` is defined and proved beside them.
