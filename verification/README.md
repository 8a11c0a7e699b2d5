# Profile resource of devconnector, modelled in Dafny

This project models the profile resource of the devconnector server in
`routes/api/profile.js`, and the edit-profile form of its client in
`client/src/components/profile-forms/EditProfile.js`.

The server side covers these handlers:

- `POST api/profile` validates `status` and `skills` and builds
  `profileFields` from the truthy inputs. Skills are split on `,` and each
  token is trimmed. The nested `social` object is always present. The
  handler then creates the profile, or updates it with a `$set`.
- `GET api/profile/user/:user_id` looks up a profile and maps errors.
- `DELETE api/profile` removes the account.
- Three handlers change the embedded experience list in place: add
  (`unshift`), delete (`splice(indexOf(id), 1)`) and update (assignment at
  `indexOf(id)`).

On the client side, the model covers the form state the edit page prefills
from the loaded profile, and its change handler.

The persisted profiles form a store: a map from user id to profile. The
create-or-update handler and the three experience handlers are methods that
take the store and return the response and the store afterwards.
Get-by-user-id is a function that returns only the response, since it
writes nothing. The account delete is a function that returns the
response, the store afterwards and the set of user ids afterwards, since it
also removes the user record. The loaded Mongoose document is the class
`ProfileDocument`. Its `experience` field is the array the handlers mutate.
JavaScript semantics are written out where they matter:

- Truthiness: only `""` is a falsy string.
- `String.prototype.split` on one character keeps empty pieces.
- `trim` removes the ECMAScript WhiteSpace and LineTerminator code points.
- `indexOf` returns the first match, or -1.
- `splice` with a negative start counts from the end.
- Assigning to index -1 sets a property that is not an element, so no
  element changes.

Modules:

- `JsStrings`: `split`, `join` and `trim`, with their round trips.
- `ProfileData`: the records and the response values.
- `Validation`: the `check(...).not().isEmpty()` chains.
- `ProfileFields`: the builder, `$set`, the created document, and the
  well-formedness every written profile keeps.
- `Experiences`: the list operations and the document class.
- `ProfileRoutes`: the handlers.
- `EditProfile`: the client form.

Three points where the code and a plain reading of the service differ.
The model follows the code in each:

- On an unknown id, the update handler assigns to index -1. That changes
  no element of the list; it does not overwrite the last entry.
- A trailing comma in `skills` keeps an empty last token. This is proved as
  `ProfileFields.TrailingCommaKeepsEmptyToken`.
- On an unknown id, the delete handler drops the last entry. This is
  recorded under Findings.

## Model

| member | source | states |
|---|---|---|
| JsStrings.TrimStart | routes/api/profile.js:84 | the result is a suffix of the input; every character removed is whitespace; the result does not start with whitespace |
| JsStrings.TrimEnd | routes/api/profile.js:84 | the result is a prefix of the input; every character removed is whitespace; the result does not end with whitespace |
| JsStrings.Trim | routes/api/profile.js:84 | `trim` gives a slice of the input with no whitespace at either end, and only whitespace lies outside that slice |
| JsStrings.TrimmedIsFixed | routes/api/profile.js:84 | trimming a string with no whitespace at either end returns it unchanged |
| JsStrings.TrimKeepsAbsent | routes/api/profile.js:84 | trimming never introduces a character that was absent |
| JsStrings.Split | routes/api/profile.js:84 | `split` always yields at least one piece |
| JsStrings.SplitCount | routes/api/profile.js:84 | the number of pieces is the number of separators plus one |
| JsStrings.SplitPiecesAvoidSeparator | routes/api/profile.js:84 | no piece contains the separator |
| JsStrings.JoinSplit | routes/api/profile.js:84 | joining the pieces with the separator gives back the string, so pieces keep their order and none is dropped |
| JsStrings.SplitEndsEmpty | routes/api/profile.js:84 | a string ending in the separator splits into at least two pieces, and the last one is empty |
| JsStrings.SplitAfterPiece | client/src/components/profile-forms/EditProfile.js:37 | splitting a separator-free piece, then the separator, then more text gives that piece followed by the split of the rest |
| JsStrings.SplitSingle | client/src/components/profile-forms/EditProfile.js:37 | a separator-free string splits into just itself |
| JsStrings.SplitJoin | client/src/components/profile-forms/EditProfile.js:37 | splitting the join of one or more separator-free pieces gives the pieces back |
| JsStrings.JoinIsEmptyOnlyFor | client/src/components/profile-forms/EditProfile.js:37 | only `[]` and `[""]` join to the empty string |
| JsStrings.Join | client/src/components/profile-forms/EditProfile.js:37 | joining one or more pieces that hold no separator puts exactly one separator between each two, so the result holds one fewer separator than there are pieces |
| ProfileData.IfTruthy | routes/api/profile.js:65-82 | an optional key is present exactly when its input is truthy, and then holds that input |
| Validation.Failures | routes/api/profile.js:42-45 | the error list is empty exactly when no check fails; it reports every failing check and only failing checks, and is no longer than the chain |
| Validation.Check | routes/api/profile.js:37-38 | a single check yields one error when its value is empty, and no error otherwise |
| Validation.FailuresOfThree | routes/api/profile.js:198-207 | a chain of three checks reports the failing ones in chain order |
| Validation.ValidateProfile | routes/api/profile.js:37-45 | the result is empty exactly when `status` and `skills` are both given; each missing one is reported with its message; the count of errors is the count of missing fields |
| Validation.ValidateExperience | routes/api/profile.js:198-207 | the result is empty exactly when `title`, `company` and `from` are all given; each missing one is reported with its message; the count of errors is the count of missing fields |
| Validation.ProfileErrorsInOrder | routes/api/profile.js:37-45 | the error list gives the `status` error, if any, before the `skills` error, if any |
| Validation.ExperienceErrorsInOrder | routes/api/profile.js:198-207 | the error list gives the `title`, `company` and `from` errors, where present, in that order |
| ProfileFields.TrimEach | routes/api/profile.js:84 | `.map(trim)` keeps the length, and trims each token in place |
| ProfileFields.NormaliseSkills | routes/api/profile.js:83-85 | one token per comma-separated piece, in order, each the trimmed piece; the token count is the comma count plus one; each token is trimmed and comma-free |
| ProfileFields.TrailingCommaKeepsEmptyToken | routes/api/profile.js:84 | with a trailing comma, the last token is the empty string |
| ProfileFields.NormaliseJoin | routes/api/profile.js:84 | normalising the comma-join of one or more trimmed, comma-free skills gives them back |
| ProfileFields.CopyTopLevel | routes/api/profile.js:63-82 | `user` is set; each top-level text key is present exactly when its input is truthy, and then equals it; skills and social are not yet set |
| ProfileFields.BuildProfileFields | routes/api/profile.js:63-103 | the built object has `user`, has each optional key exactly when its input is truthy and equal to it (skills normalised), and has `social` holding exactly the truthy links |
| ProfileFields.BuildSocial | routes/api/profile.js:88-103 | `social` holds a link exactly when its input is truthy, and then holds that input |
| ProfileFields.BuiltFromIsUnique | routes/api/profile.js:63-103 | the built object is determined by the user and the body |
| ProfileFields.UpdateOverwritesSubmittedKeepsOmitted | routes/api/profile.js:108-116 | after `$set`, each submitted key holds the submitted value and each omitted key keeps its stored value; experience and education are untouched; `social` is replaced wholesale, so an unsent link is gone |
| ProfileFields.ApplySetIdempotent | routes/api/profile.js:110-114 | applying the same `$set` twice is the same as applying it once |
| ProfileFields.ApplySet | routes/api/profile.js:110-114 | `$set` writes the built `user` and replaces `social` with the built object, and leaves the embedded experience and education lists as stored |
| ProfileFields.CreateStoresExactlySubmitted | routes/api/profile.js:119-122 | a created profile holds exactly the truthy inputs, the normalised skills and the truthy links, with empty experience and education lists |
| ProfileFields.NewProfile | routes/api/profile.js:120-121 | a new document holds the built `user` and `social`, and its experience and education lists start empty |
| ProfileFields.NormaliseSkillsIsNormal | routes/api/profile.js:84 | normalised skills are at least one token, each trimmed and comma-free |
| ProfileFields.ValidBodyMakesWellFormed | routes/api/profile.js:37-122 | a profile created from a body that passes validation has `status` and normal `skills`, and no key holding "" |
| ProfileFields.ValidBodyKeepsWellFormed | routes/api/profile.js:37-116 | a `$set` from a body that passes validation keeps a well-formed profile well-formed |
| Experiences.Ids | routes/api/profile.js:243-245 | `map(item => item.id)` keeps the length and takes each entry's id |
| Experiences.IndexOf | routes/api/profile.js:243-245 | `indexOf` is -1 exactly when the id is absent; otherwise it is the first position holding the id |
| Experiences.SpliceStart | routes/api/profile.js:247 | the start of `splice` is clamped into the list |
| Experiences.Splice | routes/api/profile.js:247 | `splice(start, 1)` removes position `start`, or position `length + start` for a negative start; a count of 0 or an empty list changes nothing; the list never grows |
| Experiences.SetIndex | routes/api/profile.js:288-295 | assignment at an index keeps the length, puts the entry at a non-negative index, and leaves every other position unchanged (all of them for index -1) |
| Experiences.EntryFromBody | routes/api/profile.js:211-218 | the new entry holds the six request fields and the given id; `description` is not copied |
| Experiences.RemoveByIdAsWritten | routes/api/profile.js:243-247 | the delete as written: a present id removes its first position; an absent id on a non-empty list drops the last entry; an empty list stays empty |
| Experiences.ReplaceByIdAsWritten | routes/api/profile.js:282-295 | the update as written keeps the length; a present id has its position replaced; an absent id changes nothing |
| Experiences.RemoveFoundDropsOnlyThatEntry | routes/api/profile.js:243-247 | removing a present id removes exactly that entry (a multiset difference of one); the others keep their order; the length drops by one; with unique ids, no entry with that id is left |
| Experiences.MissingIdDropsLastEntry | routes/api/profile.js:243-247 | deleting an absent id from a non-empty list removes the last entry, which does not carry that id |
| Experiences.MissingIdExample | routes/api/profile.js:243-247 | deleting "c" from entries "a" and "b" leaves only "a" |
| Experiences.RemoveByIdAgrees | routes/api/profile.js:243-247 | the intended delete agrees with the code for a present id, and leaves the list unchanged for an absent one |
| Experiences.RemoveById | routes/api/profile.js:243-247 | the intended delete leaves the list unchanged for an absent id, and removes exactly one entry for a present one |
| Experiences.RemoveByIdIsGuardedSplice | routes/api/profile.js:243-247 | the intended delete is `splice(index, 1)` guarded by a found index |
| Experiences.RemoveAtShifts | routes/api/profile.js:247 | removing a position shifts the later entries down by one and keeps the earlier ones |
| Experiences.IdsAfterRemoveAt | routes/api/profile.js:243-247 | the ids after removing a position are the old ids without that position |
| Experiences.OtherIds | routes/api/profile.js:243-247 | in a list of distinct ids, the ids at other positions are exactly the ids that differ from the removed one |
| Experiences.RemoveAtKeepsOtherIds | routes/api/profile.js:243-247 | removing a position from a list with unique ids leaves exactly the other ids, still unique |
| Experiences.RemoveByIdRemovesOnlyThatId | routes/api/profile.js:243-247 | with unique ids, the intended delete leaves exactly the old ids minus the one asked for, still unique |
| Experiences.RemoveAsWrittenKeepsUnique | routes/api/profile.js:243-247 | the delete as written keeps ids unique |
| Experiences.PrependKeepsUnique | routes/api/profile.js:223 | putting an entry with a fresh id in front of a list whose ids are unique keeps the ids unique |
| Experiences.ReplaceFoundChangesOnePosition | routes/api/profile.js:282-295 | replacing a present id changes only its position, to the new entry; a fresh id keeps ids unique |
| Experiences.ProfileDocument.constructor | routes/api/profile.js:221 | the loaded document holds the stored profile and its experience list |
| Experiences.ProfileDocument.Snapshot | routes/api/profile.js:225-227 | the saved profile is the loaded one with the current experience list, and nothing else changed |
| Experiences.ProfileDocument.Unshift | routes/api/profile.js:223 | the list becomes the entry followed by the old list |
| Experiences.ProfileDocument.SpliceOut | routes/api/profile.js:247 | the list becomes what `splice` leaves of the old list |
| Experiences.ProfileDocument.AssignAt | routes/api/profile.js:288-295 | the list becomes the old list with the index assigned |
| ProfileRoutes.OneProfilePerUser | routes/api/profile.js:106-122 | a keyed store holds exactly one profile for a user it has a profile for |
| ProfileRoutes.CreateOrUpdateProfile | routes/api/profile.js:32-128 | an invalid body gives 400 with every failed check and leaves the store unchanged; otherwise the user's profile is updated with `$set`, or created, from the built fields; the answer is that profile; the store invariant (keyed, well-formed, unique ids) is preserved |
| ProfileRoutes.CatchTestAsWritten | routes/api/profile.js:161 | the catch test, an assignment, is always true |
| ProfileRoutes.GetProfileByUserId | routes/api/profile.js:147-167 | the answer is the stored profile exactly when the read succeeds and a profile exists; every other outcome is 400 "Profile not found" |
| ProfileRoutes.StorageFailureReportedAsNotFound | routes/api/profile.js:158-166 | a timeout is reported as "Profile not found", and the 500 answer never occurs |
| ProfileRoutes.GetProfileByUserIdIntended | routes/api/profile.js:158-166 | with the intended test, only an id-cast failure gives 400, and any other failure gives 500 |
| ProfileRoutes.DeleteAccount | routes/api/profile.js:172-187 | the user's profile and user record are removed, and nothing else changes |
| ProfileRoutes.DeletedProfileNotFound | routes/api/profile.js:147-187 | after the account is deleted, reading its profile gives 400 "Profile not found" |
| ProfileRoutes.AddExperience | routes/api/profile.js:193-233 | an invalid body gives 400 with no write; a missing profile gives 500 with no write; otherwise the new entry is put first in the user's list and nothing else changes; the store invariant is preserved |
| ProfileRoutes.NewestFirst | routes/api/profile.js:220-227 | after two valid additions A then B to a stored profile, its list is B, then A, then the entries it held before |
| ProfileRoutes.DeleteExperience | routes/api/profile.js:238-256 | a missing profile gives 500 with no write; otherwise the list becomes what `splice(indexOf(id), 1)` leaves; the store invariant is preserved |
| ProfileRoutes.NewListKeepsValid | routes/api/profile.js:221-225 | giving a stored profile a new experience list with unique ids keeps the store invariant |
| ProfileRoutes.SpliceIfFound | routes/api/profile.js:247 | the intended guarded splice changes the list only when the index was found |
| ProfileRoutes.StoreAfterIntendedDelete | routes/api/profile.js:243-249 | the guarded splice leaves the list the intended delete gives, and keeps the store invariant |
| ProfileRoutes.DeleteExperienceIntended | routes/api/profile.js:238-256 | with the guard the code evidently means: a missing profile gives 500 with no write; otherwise the list loses exactly the entry with that id, if any; the store invariant is preserved |
| ProfileRoutes.UpdateExperience | routes/api/profile.js:261-305 | an invalid body gives 400 with no write; a missing profile gives 500, because the dereference comes before the `if (profile)` guard; otherwise the entry with that id is replaced wholesale; the store invariant is preserved |
| EditProfile.TopLevelText | client/src/components/profile-forms/EditProfile.js:41-45 | a social key read at the top level of the profile is always undefined |
| EditProfile.PrefillText | client/src/components/profile-forms/EditProfile.js:33-45 | a prefilled text is '' exactly when loading, or when the value is absent or empty; otherwise it is the value |
| EditProfile.PrefillSkills | client/src/components/profile-forms/EditProfile.js:37 | prefilled skills are the stored list joined with ','; they are '' while loading or when no list is stored |
| EditProfile.Prefill | client/src/components/profile-forms/EditProfile.js:29-48 | no state when loaded with a null profile; the initial state while loading; every social key is ''; skills are joined; each text key is prefilled from the top level of the profile |
| EditProfile.PrefillIntended | client/src/components/profile-forms/EditProfile.js:41-45 | the intended prefill reads each social key from `profile.social`, and the other keys as the code does |
| EditProfile.HandleChange | client/src/components/profile-forms/EditProfile.js:65-67 | the named key takes the new value and every other key keeps its value |
| EditProfile.ChangesCommute | client/src/components/profile-forms/EditProfile.js:65-67 | changes to two different inputs commute |
| EditProfile.FormExtensional | client/src/components/profile-forms/EditProfile.js:12-25 | helper for `ChangesCommute`: two form states that agree on all twelve keys are equal; it states no behaviour of the form |
| EditProfile.SkillsRoundTrip | client/src/components/profile-forms/EditProfile.js:37 | parsing the prefilled skills with the server's normaliser gives back the stored list, for one or more skills none of which has a comma or surrounding whitespace |
| EditProfile.SubmittedBody | client/src/components/profile-forms/EditProfile.js:69-72 | the submitted body passes the server's validation exactly when the form's status and skills are both non-empty |
| EditProfile.SingleEmptySkillBlocksResubmit | client/src/components/profile-forms/EditProfile.js:37 | stored skills `[""]` prefill as '', so resubmitting the form fails with "Skills is required" |
| EditProfile.ResubmittedTextKept | client/src/components/profile-forms/EditProfile.js:33-40 | a prefilled text sent back unchanged leaves the stored value as it was after `$set` |
| EditProfile.ResubmittedSkillsKept | client/src/components/profile-forms/EditProfile.js:37 | well-formed skills other than `[""]` prefill to a non-empty string that normalises back to them |
| EditProfile.ResubmitWipesSocialLinks | client/src/components/profile-forms/EditProfile.js:41-45 | resubmitting the prefilled form unchanged passes validation, and leaves the profile as it was except that all social links are cleared |
| EditProfile.IntendedResubmitKeepsProfile | client/src/components/profile-forms/EditProfile.js:41-45 | with the intended prefill, resubmitting the form unchanged leaves the profile exactly as it was |

## Left out

- `GET api/profile/me` (including its missing `return` after the 400 answer), `GET api/profile`, and the `populate('user', …)` projection: these are reads with no list or record logic beyond what get-by-user-id shows.
- Persistence faults other than those modelled: the 500 answer of the upsert's `catch`, and failures of `save`, `findOneAndUpdate` and `findOneAndRemove`. The store operations are assumed to succeed. Two faults are modelled: the null-profile dereference of the experience handlers, and the read failure of get-by-user-id, which is a parameter.
- Authentication: `req.user.id` is a parameter. Concurrency is not modelled, including the lost update between two requests that read and then save the same profile.
- Generation of ids and dates: a new experience entry's id is a parameter, assumed fresh in its list, and dates are opaque strings.
- The education handlers, the posts cascade of the account delete (a to-do in the code), the other UI files and Redux. The submit handler of the edit form is assumed to post the form state as the request body (`EditProfile.SubmittedBody`), because the Redux action is not part of this model.
- Validation reads only the request body. express-validator's `check` also looks for the key in the query string, the route parameters, the headers and the cookies. It passes when at least one of these locations has the key and every location that has it holds a non-empty value; when no location has the key, it checks an undefined value and fails. The handlers read `req.body` only. So a request such as `POST api/profile?status=Dev` with body `{ skills: "x" }` passes in the source and stores a profile without `status`, but the model answers 400. The if-and-only-if contracts of `Validation.ValidateProfile` and `Validation.ValidateExperience`, `ProfileFields.ValidBodyMakesWellFormed`, `ProfileFields.ValidBodyKeepsWellFormed` and the well-formedness part of `ProfileRoutes.ValidStore` assume every checked key comes from the body. `FieldError` keeps only the `param` and `msg` of each `errors.array()` entry and drops its `value` and `location`.
- The text keys of a request body are strings, with "" standing for a missing key. Non-string values (a JSON number or array) are not modelled. The experience body's `current` is a boolean, and the model reads an absent `current` as `false`. The profile schema, which would settle what Mongoose stores for it, is not part of this model.
- Mongoose change tracking is not modelled: the model assumes that `save` writes the array assigned at an index. Mongoose's default of `[]` for the embedded lists is assumed.
- `ProfileFields.CopyTopLevel` keeps each key of `profileFields` in its own local and assembles the object at the end. Each assignment in the source sets one key independently, so the result is the same.
- `EditProfile.HandleChange` takes the input's name as one of the twelve form keys. Every input of the form carries one of those names, so the spread never adds a new key, and the twelve-key shape of the state holds by construction.

## Findings

| source | as written | input that shows it | evidently intended | confidence | as-written member | corrected member |
|---|---|---|---|---|---|---|
| routes/api/profile.js:243-247 | `splice(indexOf(id), 1)` with `indexOf` giving -1 for an unknown id | deleting id "c" from entries with ids "a" and "b" leaves only "a" | an unknown id leaves the list unchanged | high (not executed) | Experiences.MissingIdExample | Experiences.RemoveByIdRemovesOnlyThatId |
| routes/api/profile.js:161 | `if ((err.kind = 'ObjectId'))` assigns, so the test is always true | a read failing with kind "Timeout" is answered 400 "Profile not found" | only an id-cast failure answers 400; others answer 500 | high (not executed) | ProfileRoutes.StorageFailureReportedAsNotFound | ProfileRoutes.GetProfileByUserIdIntended |
| client/src/components/profile-forms/EditProfile.js:41-45 | the links are read as `profile.youtube` etc., but the server stores them under `profile.social` | a profile with `social.youtube` set prefills youtube as '', and resubmitting the form unchanged clears the link | the links are prefilled from `profile.social` | high (not executed) | EditProfile.ResubmitWipesSocialLinks | EditProfile.IntendedResubmitKeepsProfile |
