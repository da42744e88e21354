# Profile document engine of the DevForFun profile API

This project models, in Dafny, the document logic inside the Express router
`routes/api/profile.js`: how the create/update handler turns a request body into a
field patch and applies it to the owner's profile (create when absent, `$set` when
present), and how the experience and education handlers add entries with `unshift`
and remove them with `indexOf` followed by `splice`. The Mongoose collection is
replaced by an in-memory store, a `map` from owner id to profile document, held by
the class `ProfileStore.Store`; each handler is one method of that class.

Files:

- `wrappers.dfy`: `Option` and `Result`.
- `js_strings.dfy`: the JavaScript built-ins the skills field goes through,
  `String.prototype.split(',')` and `String.prototype.trim`, with the white-space set
  of ECMAScript sections 12.2 and 12.3, their inverse (`Join`) and uniqueness results.
- `sub_records.dfy`: generic entry lists (`Entry<T>` with an id), `indexOf`,
  `Array.prototype.splice` with its negative-start rule, `unshift`, remove-by-id as
  written, and a checked removal.
- `profiles.dfy`: the profile, input and patch records, truthiness, the patch
  builder, `$set` merge and creation from a patch, with the lemmas about updates.
- `profile_store.dfy`: the store class and its handler methods, with the invariant
  that every document sits under its own owner and has unique sub-record ids.

Request fields are `Option<string>`: a missing field is `None`, and a field is
truthy when it is present and not empty. The requesting user's id (from the auth
middleware) and the id Mongoose gives a new sub-document are method parameters; the
latter must not already occur in the list.

The model follows the code: removing an experience or education entry by an id
that no entry has does not leave the list alone, it removes the last entry (see
Findings), and a missing profile in the list handlers is a server error from a null
dereference, not a not-found result.

## Model

| member | source | states |
|---|---|---|
| `JsStrings.OutsideRanges` | routes/api/profile.js:76 | a code point outside every listed range is not among the characters `trim()` removes |
| `JsStrings.PrintableIsNotWhiteSpace` | routes/api/profile.js:76 | printable ASCII other than the space, the comma included, is never removed by `trim()` |
| `JsStrings.LeadingWhiteSpace` | routes/api/profile.js:76 | the count of leading characters `trim()` removes: all white space, followed by the end or by a non-white character |
| `JsStrings.TrailingWhiteSpace` | routes/api/profile.js:76 | the count of trailing characters `trim()` removes: all white space, preceded by the start or by a non-white character |
| `JsStrings.Trim` | routes/api/profile.js:76 | `trim()` leaves no white space at either end and never lengthens the string |
| `JsStrings.TrimDropsOnlyWhiteSpace` | routes/api/profile.js:76 | the input is white space, then the trimmed string as a contiguous part, then white space |
| `JsStrings.TrimKeepsOnlyInputCharacters` | routes/api/profile.js:76 | every character of the trimmed string occurs in the input, so trimming cannot introduce a comma |
| `JsStrings.LeadingWhiteSpaceUnique` | routes/api/profile.js:76 | a white-space prefix followed by the end or a non-white character is exactly what `trim()` removes in front |
| `JsStrings.TrailingWhiteSpaceUnique` | routes/api/profile.js:76 | a white-space suffix preceded by the start or a non-white character is exactly what `trim()` removes at the back |
| `JsStrings.TrimUnique` | routes/api/profile.js:76 | whatever white space surrounds a string with non-white ends, trimming recovers exactly that string |
| `JsStrings.TrimOfTrimmed` | routes/api/profile.js:76 | a string with non-white ends is unchanged by trimming |
| `JsStrings.TrimIdempotent` | routes/api/profile.js:76 | trimming twice equals trimming once |
| `JsStrings.Split` | routes/api/profile.js:76 | `split(',')` always gives at least one piece, even for the empty string |
| `JsStrings.SplitCount` | routes/api/profile.js:76 | `split(',')` gives exactly one more piece than there are commas |
| `JsStrings.SplitPiecesCommaFree` | routes/api/profile.js:76 | no piece of `split(',')` contains a comma |
| `JsStrings.JoinConsFirst` | routes/api/profile.js:76 | extending the first piece by a character extends the comma-join by that character in front |
| `JsStrings.JoinSplit` | routes/api/profile.js:76 | joining the pieces with commas gives back the input, so order and empty pieces are kept |
| `JsStrings.SplitConsChar` | routes/api/profile.js:76 | a character other than a comma in front of a string becomes the start of the first piece |
| `JsStrings.SplitAfterCommaFreePrefix` | routes/api/profile.js:76 | a comma-free prefix becomes the start of the first piece |
| `JsStrings.SplitJoin` | routes/api/profile.js:76 | splitting the comma-join of comma-free pieces gives back those pieces |
| `Profiles.IfTruthy` | routes/api/profile.js:69-74 | a guarded field is present exactly when the input is non-empty, and then equals it |
| `Profiles.ParseSkills` | routes/api/profile.js:75-77 | one skill per comma-separated piece, in order, each the trimmed piece, with no white space at its ends and no comma |
| `Profiles.ParseSkillsOfJoin` | routes/api/profile.js:75-77 | trimmed, comma-free skills joined with commas are stored exactly as given |
| `Profiles.ParseSkillsOfPaddedJoin` | routes/api/profile.js:75-77 | white space around each comma-separated skill is removed and nothing else changes |
| `Profiles.BuildPatch` | routes/api/profile.js:67-84 | `user` is always the requesting owner; each scalar and social field is in the patch iff its input is non-empty, then equal to it; skills iff non-empty, then parsed; a social object is always present |
| `Profiles.Merge` | routes/api/profile.js:89-94 | under `$set` a patched field overwrites, an absent field keeps its stored value, the social object is replaced whole, and the entry lists are untouched |
| `Profiles.EmptyProfile` | routes/api/profile.js:98 | a document with only its owner: no scalar field, no social link, empty skills and entry lists |
| `Profiles.Create` | routes/api/profile.js:98-99 | a new document holds exactly the patch's fields, empty skills when the patch has none, and empty entry lists |
| `Profiles.CreateIsMergeOntoEmpty` | routes/api/profile.js:89-99 | creating from a patch equals applying that patch to an empty document of the same owner |
| `Profiles.UpsertKeepsWellFormed` | routes/api/profile.js:87-99 | both branches of the upsert leave a document naming its owner with unique entry ids |
| `Profiles.UpdateFieldByField` | routes/api/profile.js:67-94 | after an update each falsy request field keeps the stored value, each truthy one takes the request value, social becomes exactly the truthy links, entry lists unchanged |
| `Profiles.UpdateIdempotent` | routes/api/profile.js:89-94 | repeating the same update changes nothing further |
| `Profiles.SecondUpdateWins` | routes/api/profile.js:67-94 | after two updates the second request's truthy fields win, the first's survive where the second is falsy, social is the second request's alone, and the entry lists are untouched |
| `SubRecords.Ids` | routes/api/profile.js:234 | `map(item => item.id)` lists the entries' ids in order |
| `SubRecords.IndexOf` | routes/api/profile.js:234 | `indexOf` is -1 iff the id is absent, else the position of its first occurrence |
| `SubRecords.SpliceStart` | routes/api/profile.js:236 | splice's start clamps to the list and a negative start counts back from the end |
| `SubRecords.SpliceCount` | routes/api/profile.js:236 | splice removes the requested count when it fits after the start, everything after the start when it is larger, and nothing when it is negative |
| `SubRecords.Splice` | routes/api/profile.js:236 | splice removes one contiguous block and keeps all other entries in order |
| `SubRecords.Prepend` | routes/api/profile.js:214 | `unshift` puts the new entry first and keeps the old list after it |
| `SubRecords.RemoveById` | routes/api/profile.js:234-236 | a present id removes exactly its first entry; an absent id removes the last entry of a non-empty list and leaves an empty list unchanged |
| `SubRecords.RemoveByIdOrNotFound` | routes/api/profile.js:318-320 | the checked removal fails iff the id is absent, and otherwise removes exactly the first entry with the id |
| `SubRecords.CheckedRemoveAgrees` | routes/api/profile.js:234-236 | where the checked removal succeeds it equals the handlers' removal |
| `SubRecords.PrependKeepsUniqueIds` | routes/api/profile.js:298 | adding an entry with a fresh id keeps ids unique |
| `SubRecords.DropKeepsUniqueIds` | routes/api/profile.js:320 | dropping one entry keeps ids unique |
| `SubRecords.RemoveKeepsUniqueIds` | routes/api/profile.js:318-320 | removing by id, on either splice branch, keeps ids unique |
| `SubRecords.RemovePresentIdIsGone` | routes/api/profile.js:234-236 | with unique ids, removing a present id leaves no entry with it and shortens the list by one |
| `SubRecords.RemoveAfterPrepend` | routes/api/profile.js:214-236 | removing the id of the entry just added restores the previous list |
| `SubRecords.AbsentIdRemovesLastEntry` | routes/api/profile.js:234-236 | removing an absent id from two entries drops the second one |
| `SubRecords.AbsentIdReported` | routes/api/profile.js:318-320 | the checked removal reports that same absent id as not found |
| `ProfileStore.Store.FindByOwner` | routes/api/profile.js:130-137 | the owner's document, which names that owner, or ProfileNotFound iff the owner has none |
| `ProfileStore.Store.Upsert` | routes/api/profile.js:86-100 | the owner ends with exactly one document, merged with `$set` if one existed and created from the patch otherwise; other owners unchanged; the invariant holds |
| `ProfileStore.Store.Delete` | routes/api/profile.js:157 | the owner's document is gone and nothing else changes, so a second delete is harmless |
| `ProfileStore.Store.AddExperience` | routes/api/profile.js:211-220 | with a document the entry is prepended and saved; without one a server error and an unchanged store |
| `ProfileStore.Store.RemoveExperience` | routes/api/profile.js:230-244 | with a document the as-written removal is applied and saved; without one a server error and an unchanged store |
| `ProfileStore.Store.AddEducation` | routes/api/profile.js:295-305 | with a document the entry is prepended and saved; without one a server error and an unchanged store |
| `ProfileStore.Store.RemoveEducation` | routes/api/profile.js:314-328 | with a document the as-written removal is applied and saved; without one a server error and an unchanged store |

## Findings

| source | as written | input that shows it | evidently intended | confidence | as-written member | corrected member |
|---|---|---|---|---|---|---|
| routes/api/profile.js:234-236 (and 318-320) | `splice(indexOf(id), 1)` with the index unchecked | experience `[a, b]`, remove an id neither has: `indexOf` is -1, `splice(-1, 1)` removes `b` | an absent id leaves the list alone and is reported as not found | not executed; high | `SubRecords.AbsentIdRemovesLastEntry` | `SubRecords.RemoveByIdOrNotFound` |

The store's `RemoveExperience` and `RemoveEducation` keep the as-written removal,
because they model the handlers. `SubRecords.CheckedRemoveAgrees` shows that the
corrected removal gives the same list whenever the id is present, so every property
proved for present ids holds for both.

## Left out

- GitHub repository lookup (routes/api/profile.js:337-357): an outbound HTTP request with configuration lookup and JSON parsing; network I/O with no local logic.
- Request validation (routes/api/profile.js:37-50, 173-189, 254-273): done by the express-validator library, whose behaviour is not visible. Its rule names `skill` while the handler reads `skills`. The model assumes the handlers run on whatever body passes.
- Authentication: the requesting user's id is a parameter.
- GET `/me` (routes/api/profile.js:17-29) and GET `/` (113-122): reads that only add `populate` projections of the user record, which is not part of this model; `/me` also sends no response when a profile exists.
- DELETE (routes/api/profile.js:158): removing the user record is left out; its filter's effect depends on Mongoose query casting. Only the profile removal is modelled, as `Store.Delete`.
- ProfileStore.Store.FindByOwner: the ObjectId cast error branch (routes/api/profile.js:140-142) answers like a missing profile; owner ids are plain strings here, so that branch does not arise.
- HTTP status codes, response bodies and `console.error` logging.
- Store failures: the in-memory store cannot fail, so the handlers' catch blocks are modelled only for the null-profile TypeError.
- The race between `findOne` and the following update or save: the model is sequential.
- Non-string request values: truthiness is modelled for strings only. A non-string `skills` would make `split` throw before the `try` block.
- The profile schema (models/profile is not part of this model): default dates, casting and sub-document id generation. Sub-record ids are supplied by the caller and must be fresh.
- Profiles.Merge: `$set` of the nested `social` object is modelled as replacing the whole object, as the update object is written; Mongoose's handling of nested paths is not visible.
- JavaScript strings are UTF-16 code units while Dafny characters are Unicode scalar values; every white-space character that `trim` removes is in the Basic Multilingual Plane, so only lone surrogates, which are not modelled, could differ.
