# Module authorization and title validation

A Dafny model of the access-control and content-validation layer of a small
Django REST framework backend for training "modules" (courses). Every module
row has an owner account, `module_user`. The layer has four parts:

- **IsAuthenticatedAndIsOwner** (`ModulePermissions`): the permission class of
  the module list, retrieve, update and delete views. Stage one requires an
  authenticated principal. Stage two decides per HTTP verb against the module's
  owner: GET/HEAD/OPTIONS and PATCH/PUT/POST need the owner, DELETE needs the
  owner or a superuser, and any other verb is refused.
- **IsAuthenticatedOrIsOwner** (`AccountPermissions`): the account class.
  It checks authentication, then exact e-mail equality with the addressed account.
- **TitleValidation** (`Validators`, with worked titles in `ValidatorExamples`):
  refuses a title when one of nine banned Russian words occurs in it, ignoring case.
  The source uses `re.match(r'(.*)(...)(.*)', title, re.IGNORECASE)` without
  DOTALL, so `.` does not match a line break. A word is therefore caught only in
  the title's first line. The model scans that first line for the words
  (`ScanFrom` over `FirstLine`). `MatchesIsRegexMatch` proves the scan decides
  exactly what the regular expression decides (`RegexMatches`).
- **The generated text fields** (`TextFields`): the serializers build `title`
  and `description` from the model's `CharField(max_length=30)` and
  `TextField`. Each field strips surrounding whitespace as Python's
  `str.strip()` does (`Strip`), refuses a blank value, and refuses a NUL
  character; the title also refuses more than 30 characters (`Clean`). Only then
  does `TitleValidation` see the title, already stripped.
- **The module views** (`ModuleViews`): which permission class each of the five
  views uses, and how the two stages turn into a decision (`Authorize`). The
  create handler is a class `ModuleStore` holding the Module table and the
  notification queue. `PerformCreate` follows `perform_create` step by step: save,
  queue `(email, title)`, set `model_user` for non-staff requesters, save again.

Shared entities are in `Domain`: `Principal` (Anonymous or an authenticated user
with id, e-mail, staff and superuser flags), `Account`, `HttpMethod` (the seven
named verbs, or any other verb name), the
`Module` row and the dispatch `Decision`. `request.user == obj.module_user` is
Django model equality, so it is modelled as equal primary keys (`SameUser`).

Three behaviours of the code differ from what its names and docstrings suggest.
The model follows the code in each case:

- Only the first line of a title is checked, although the class docstring
  (modules/validators.py:6-7) promises a title free of banned words.
  `HiddenAfterNewline` and `SecondLineNotChecked` show that a banned word after a
  line break gets through.
- `perform_create` assigns `model_user`, which is not a column. The owner
  `module_user` keeps the value from the payload, staff or not. The `Module` model
  in modules/models.py declares no owner column, yet the serializer field at
  modules/serializers.py:10 and the fixtures at modules/tests.py:16-28 use one.
  `Domain.Module.moduleUser` assumes that column exists. `PerformCreate` keeps the
  payload's owner and records the extra attribute separately.
- A partial update without a title is not skipped by the code:
  `value.get('title')` gives `None` and `re.match` raises.

`TitleValidation` sees the title after the field has stripped it. A leading line
break therefore hides nothing: `LeadingLineBreakStripped` shows that "\nказино"
reaches it as "казино", which is refused. A line break after some text still hides
what follows it.

## Model

| member | source | states |
|---|---|---|
| `ModulePermissions.HasPermission` | modules/permissions.py:10-13 | stage one holds exactly for an authenticated principal, for every verb; refusal means Anonymous |
| `ModulePermissions.HasObjectPermission` | modules/permissions.py:15-25 | granted only to an authenticated principal; safe verbs and PATCH/PUT/POST: iff the requester is the owner; DELETE: iff authenticated and owner or superuser; every other verb refused; a grant means owner, or DELETE by a superuser |
| `ModulePermissions.AnonymousNeverGranted` | modules/permissions.py:15-25 | Anonymous is refused every module under every verb |
| `ModulePermissions.OwnerGranted` | modules/permissions.py:16-24 | the owner is granted every safe verb, every write and DELETE |
| `ModulePermissions.SuperuserMattersOnlyForDelete` | modules/permissions.py:15-25 | flipping the superuser flag changes no decision except for DELETE |
| `ModulePermissions.SuperuserMayDeleteAny` | modules/permissions.py:21-24 | a superuser may delete any module |
| `ModulePermissions.SuperuserCannotReadOrWriteOthers` | modules/permissions.py:16-20 | a superuser who is not the owner is refused every verb except DELETE |
| `ModulePermissions.StaffNeverConsulted` | modules/permissions.py:10-25 | flipping the staff flag changes neither stage |
| `AccountPermissions.HasPermission` | users/permissions.py:9-12 | stage one holds exactly for an authenticated principal |
| `AccountPermissions.HasObjectPermission` | users/permissions.py:14-17 | granted iff the requester's e-mail equals the account's; no verb or flag takes part |
| `AccountPermissions.Decide` | users/permissions.py:9-17 | allowed iff authenticated with the same e-mail; 401 iff anonymous; otherwise 403 |
| `AccountPermissions.PrivilegeGrantsNothing` | users/permissions.py:14-17 | with a different e-mail, access is refused even with superuser and staff flags set |
| `AccountPermissions.AccountTestOutcomes` | users/tests.py:194-249 | own account allowed (200), another's refused (403), anonymous 401 |
| `Validators.Lower` | modules/validators.py:16 | the case folding leaves no upper-case ASCII or Cyrillic letter, fixes every other character and keeps line breaks apart |
| `Validators.LowerFollowsAlphabets` | modules/validators.py:16 | letter by letter, each capital A–Z and А–Я (with Ё) becomes its own small letter, and every small letter stays as it is |
| `Validators.FirstLine` | modules/validators.py:14 | the first line is a newline-free prefix of the title that stops at the first line break or at the end |
| `Validators.FirstLineCovers` | modules/validators.py:14 | every newline-free prefix of the title lies inside its first line |
| `Validators.MatchAny` | modules/validators.py:14 | true iff one of the alternatives occurs, ignoring case, at the position |
| `Validators.ScanFrom` | modules/validators.py:14-16 | true iff some banned word occurs, ignoring case, at a position at or after the start |
| `Validators.BannedWordsHaveNoNewline` | modules/validators.py:14 | no banned word contains a line break |
| `Validators.MatchesIsRegexMatch` | modules/validators.py:14-16 | the scan over the first line holds iff the title is a newline-free prefix, then a banned word up to case, then any rest |
| `Validators.TitleValidation.Call` | modules/validators.py:12-19 | an error iff the title matches the pattern; the error has the single key `banned_words` with the fixed message; otherwise no error |
| `Validators.OnlyTitleIsRead` | modules/validators.py:9-15 | the outcome depends only on the "title" entry and not on the stored `field` |
| `Validators.RejectedAfterAppend` | modules/validators.py:14 | a rejected title stays rejected with any text appended |
| `Validators.RejectedAfterPrepend` | modules/validators.py:14 | a rejected title stays rejected with newline-free text prepended |
| `Validators.FirstLineStopsAtNewline` | modules/validators.py:14 | the first line of `t + "\n" + s` is `t` when `t` has no line break |
| `Validators.HiddenAfterNewline` | modules/validators.py:14-16 | an accepted single-line text followed by a line break and anything at all is accepted |
| `ValidatorExamples.AcceptedWhenLettersAbsent` | modules/validators.py:14-16 | a title is accepted when it lacks, up to case, all of a set of letters each banned word needs one of |
| `ValidatorExamples.EveryBannedWordHasKeyLetter` | modules/validators.py:14 | every banned word contains one of б, к, д, п |
| `ValidatorExamples.TestTitleKazinoRejected` | modules/tests.py:92-130 | "казино" is refused with the `banned_words` error |
| `ValidatorExamples.TestTitleDataScienceAccepted` | modules/tests.py:135-167 | "Data science" is accepted |
| `ValidatorExamples.TestTitleAstronomyAccepted` | modules/tests.py:390-411 | "Астрономия" is accepted |
| `ValidatorExamples.CapitalisedWordRejected` | modules/validators.py:16 | "Казино акция" is refused: case is ignored |
| `ValidatorExamples.EmbeddedWordRejected` | modules/validators.py:14 | "Курс: дешевоXXX" is refused: the word may follow a prefix and be glued to other text |
| `ValidatorExamples.SecondLineNotChecked` | modules/validators.py:14-16 | "Астрономия\nказино" is accepted: the second line is not checked |
| `TextFields.SkipLeading` | modules/models.py:6-7 | the index reached lies at or after the start, everything skipped is whitespace, and it stops at the end or at a non-whitespace character |
| `TextFields.SkipTrailing` | modules/models.py:6-7 | the index reached lies between the lower bound and the index it starts from, everything skipped is whitespace, and it stops at the lower bound or after a non-whitespace character |
| `TextFields.Strip` | modules/models.py:6-7 | the result is a slice of the value that neither starts nor ends with whitespace, with only whitespace before and after it |
| `TextFields.StripKeepsTrimmed` | modules/models.py:6-7 | a value without whitespace at either end is left as it is |
| `TextFields.StripIdempotent` | modules/models.py:6-7 | stripping twice is stripping once |
| `TextFields.Clean` | modules/models.py:6-7 | accepted iff the stripped value is non-empty, within the limit and free of NUL, and then the result is the stripped value; a blank value gives exactly the blank error; otherwise the too-long error iff over the limit and the NUL error iff a NUL occurs, together |
| `TextFields.TrimmedValueAccepted` | modules/models.py:6-7 | a non-empty value without surrounding whitespace, within the limit and without NUL, is accepted unchanged |
| `TextFields.BlankValuesRefused` | modules/models.py:6-7 | "" and " \t " are refused as blank |
| `TextFields.LeadingLineBreakStripped` | modules/models.py:6 | the title "\nказино" is accepted by the field as "казино" |
| `TextFields.BannedTitlePayloadAccepted` | modules/tests.py:89-130 | the fields accept the title "казино" and the description "тестовое описание" unchanged |
| `TextFields.CorrectPayloadAccepted` | modules/tests.py:132-167 | the fields accept the title "Data science" and the description "тестовое описание" unchanged |
| `ModuleViews.PermissionClassOf` | modules/views.py:16-60 | the create view uses IsAuthenticated; the list, retrieve, update and delete views use IsAuthenticatedAndIsOwner |
| `ModuleViews.ClassHasPermission` | modules/views.py:16-60 | stage one of either class holds exactly for an authenticated principal |
| `ModuleViews.ClassHasObjectPermission` | modules/views.py:16-60 | IsAuthenticated grants every object; IsAuthenticatedAndIsOwner decides as its object check |
| `ModuleViews.Authorize` | modules/views.py:11-60 | 401 iff anonymous; create and list are allowed iff authenticated, with no object check; an object view on an existing module is allowed iff the object check grants it; an authenticated request to an object view for a missing module is 404, and 404 happens only then; 403 only on an object view for an authenticated principal |
| `ModuleViews.ObjectViewsNeedOwner` | modules/views.py:39-60 | retrieve, update and delete let through the owner, and for delete also a superuser, and no one else |
| `ModuleViews.OwnerTestOutcomes` | modules/tests.py:229-491 | the owner is allowed retrieve (GET), update (PATCH) and delete (DELETE) |
| `ModuleViews.OtherUserTestOutcomes` | modules/tests.py:278-465 | another authenticated user is refused (403) retrieve, update and delete |
| `ModuleViews.AnonymousTestOutcomes` | modules/tests.py:49-443 | an anonymous request is refused (401) on all five views |
| `ModuleViews.ModuleStore.Save` | modules/views.py:19-28 | an unsaved instance gets the next key and a new row; a saved one overwrites its row; the queue is untouched |
| `ModuleViews.ModuleStore.SaveNew` | modules/views.py:19 | the validated payload becomes one new row under the next key, owner as in the payload |
| `ModuleViews.ModuleStore.PerformCreate` | modules/views.py:18-28 | one new row with the payload's title, description and owner; the table grows by one; exactly one notification with the requester's e-mail and the title, whatever the staff flag; `model_user` set to the requester iff not staff |
| `ModuleViews.ModuleStore.Create` | modules/views.py:11-28 | anonymous: 401 and nothing changes; a field refusing its value: 400 with each field's errors and nothing changes; banned stripped title: 400 with the `banned_words` error and nothing changes; otherwise 201 with the new row holding the stripped title and description under the next key, one more row, the next key advanced by one, and one queued notification with the stripped title |
| `ModuleViews.ModuleStore.List` | modules/views.py:31-36 | authenticated requests get exactly the whole table, other users' rows included; anonymous ones get nothing |
| `ModuleViews.Fixture` | modules/tests.py:11-30 | the test fixture holds two modules and no queued e-mail |
| `ModuleViews.TestCreateWithoutAuthentication` | modules/tests.py:49-87 | an anonymous create gets 401, the count is 2 before and after, nothing is queued |
| `ModuleViews.TestCreateWithIncorrectTitle` | modules/tests.py:89-130 | the title "казино" gets 400 with `banned_words` and its message, the count is 2 before and after, nothing is queued |
| `ModuleViews.TestCreateCorrectly` | modules/tests.py:132-167 | the title "Data science" gets 201, the count goes from 2 to 3, one e-mail is queued to the requester with that title |

## Left out

- Sending the e-mail (modules/tasks.py through Celery and SMTP) is I/O. The model only appends `(email, title)` to the queue `outbox`.
- `UserManager` in users/models.py is left out as marginal to module access: its refusal of an empty e-mail (users/models.py:15-16) and its staff and superuser defaults (users/models.py:29-30) are not modelled. Accounts enter the model already built.
- The serializers: both attach `TitleValidation`, and `Create` runs it after the generated text fields. Looking up `module_user` by e-mail is left out because the payload carries the resolved account, so the 400 for an unknown e-mail is not modelled. A payload that omits a field, or sends a non-string, is not modelled either: `ModuleData` always holds three strings.
- The update and delete handlers' effect on the table belongs to the framework's generic views. Only their permission decision (`Authorize`) is modelled. `TitleValidation` on update is covered by `Validators.TitleValidation.Call` alone, and the update serializer's text fields by `TextFields.Clean`.
- Validators.TitleValidation.Call: requires a "title" entry. Without one the source's `re.match(..., None)` raises TypeError, and the model does not invent a skip.
- AccountPermissions.HasObjectPermission: requires an authenticated principal. Django's AnonymousUser has no `email` attribute, so the source would raise. The framework calls it only after `has_permission` passed; `Decide` composes the two.
- ModuleViews.Authorize: requires a verb the view's handler serves. The 405 answer to other verbs, and the framework's HEAD and OPTIONS handling, are dispatch behaviour.
- Validators.Lower: folds only ASCII A–Z, Cyrillic А–Я and Ё. Python's IGNORECASE compares characters by their simple lower-case forms over all of Unicode, and adds a table of extra equivalences, such as U+1C80 for "в" and U+1C82 for "о". Letters outside the two alphabets are not folded, and the extra equivalences are not modelled. So a title that spells a banned word with one of them, such as "дешевᲂ", is refused by the source and accepted by the model.
- Turning decisions into 401/403/404 bodies and messages is the framework's dispatch; `Decision` names only the outcome.
- Inactive accounts, JWT issuance, registration and activation come from external authentication libraries.
- The account delete view and its permission class are not part of this model. Neither is users/views.py, users/management/commands/csu.py, modules/urls.py or modules/admin.py.
- The order of steps inside `perform_create` (notification queued before the staff check and the second save) is followed by the method body. The contract states only the final state: the queue entry does not depend on the staff flag.
