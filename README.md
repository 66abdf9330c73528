# EEMI application client: upload slots, form schema and route guard

This project models the client-side core of the EEMI application portal, a
Next.js front end where candidates fill in a three-step application form
and attach documents. Four pieces are modelled.

- **The document slot** (`src/components/forms/FileUpload.tsx`). A file
  batch is checked against the size limit. Each admitted file becomes an
  entry of the `uploading` list and an upload request to the endpoint for
  the slot's document type. The transfer callbacks are `progress`, `load`
  and `error`; they and the dismissal of a failed entry rewrite that list.
  `localError` holds the slot-level size message. This is the class
  `UploadSlot.Slot`, with one method per event. `UploadFile`, `ProcessFiles`
  and `UploadAll` append `UploadSlot.NewTasks` entries. `OnProgress`,
  `OnLoad`, `OnNetworkError` and `RemoveUploadingError` tie their new list
  to one pure transform, `UploadSlot.Step`. Lemmas about `Step` and `Run`
  show what any interleaving of events preserves.
- **The local picker** (`src/components/ui/file-upload.tsx`). It applies the
  same size rule, then either appends the batch to the current selection
  or replaces it with the batch's first file. It also removes a file by
  position. This is the class `FileSelection.Picker`.
- **The application schema** (`src/lib/validations/application.ts`): the
  three step schemas, their merge, the step-to-fields table and the option
  tables, in `ApplicationSchema`.
- **The route guard** (`src/middleware.ts`). Given a path and the session's
  user, it either redirects to the login page, to the dashboard or to `/`,
  or passes the request through. This is `RouteGuard.Middleware`.

`FileLimits` holds what both upload components share:
- the byte limit;
- the first-oversized-file scan;
- which files of an admitted batch are kept;
- the rejection message;
- the unit `formatSize` picks.

`Options` holds the Option datatype.

Nothing in the listeners makes progress increase; the model accepts any
progress value in any order.

## Model

| member | source | states |
|---|---|---|
| FileLimits.MaxBytes | src/components/forms/FileUpload.tsx:74 | The limit is in mebibytes: `maxSizeMB` times 1048576 bytes, at least one mebibyte for a positive limit. |
| FileLimits.FirstOversize | src/components/forms/FileUpload.tsx:157-164 | The scan stops at a position exactly when some file exceeds the limit. That file is over the limit and every file before it is within. No stop means every file is within. |
| FileLimits.FirstOversizeAt | src/components/ui/file-upload.tsx:38-44 | A loop that has checked a prefix and meets an oversized file has found the first oversized file. |
| FileLimits.ExactLimitPasses | src/components/forms/FileUpload.tsx:74 | A file of exactly `maxSizeMB * 1024 * 1024` bytes is never the rejected one; the test is strict. |
| FileLimits.SizeBoundary | src/components/ui/file-upload.tsx:32 | A one-file batch at the limit is admitted; one byte more is rejected at position 0. |
| FileLimits.Admit | src/components/forms/FileUpload.tsx:166-168 | The kept files are a prefix of the batch: all of it in multi-file mode, at most the first file otherwise (none for an empty batch). |
| FileLimits.Decimal | src/components/forms/FileUpload.tsx:160 | The rendered limit is a non-empty string of decimal digits with no leading zero ("0" only for zero), one digit exactly below 10. |
| FileLimits.DecimalRoundTrip | src/components/forms/FileUpload.tsx:160 | Reading the rendered digits back gives the limit itself. |
| FileLimits.OversizeMessage | src/components/ui/file-upload.tsx:40-42 | The message starts with the file name between double quotes and ends with the limit's decimal text followed by " Mo". |
| FileLimits.OversizeMessageInjective | src/components/forms/FileUpload.tsx:159-161 | Two different file names never give the same message. |
| FileLimits.UnitOf | src/components/forms/FileUpload.tsx:48-52 | The unit, and the symbol written, is "o" exactly below 1024 bytes and "Mo" exactly from 1024 * 1024 bytes on; "Ko" lies between. |
| FileLimits.UnitOfMonotone | src/components/ui/file-upload.tsx:81-85 | A larger size never shows a smaller unit. |
| UploadSlot.Endpoint | src/components/forms/FileUpload.tsx:89-94 | IDENTITY selects the identity endpoint; every other document type, unknown ones included, selects cv. |
| UploadSlot.UploadPath | src/components/forms/FileUpload.tsx:148 | The request goes to `/api/upload/identity` exactly for IDENTITY and to `/api/upload/cv` otherwise. |
| UploadSlot.DeleteOutcome | src/components/forms/FileUpload.tsx:177-189 | The parent is told the document was deleted exactly when the response is ok, and then it is given that document's id. |
| UploadSlot.Failed | src/components/forms/FileUpload.tsx:220 | `u.error` is truthy only when an error is present, and an empty error string is not truthy. |
| UploadSlot.NewTask | src/components/forms/FileUpload.tsx:81-84 | The appended entry carries the temporary id and the file's name and size, with progress 0 and no error, so it is not failed. |
| UploadSlot.Step | src/components/forms/FileUpload.tsx:101-146 | An event never lengthens the list. Progress, a failed load and a network error keep its length. |
| UploadSlot.Run | src/components/forms/FileUpload.tsx:101-146 | No sequence of events lengthens the list. |
| UploadSlot.IsUploading | src/components/forms/FileUpload.tsx:220 | The slot is busy exactly when some entry has no truthy error. |
| UploadSlot.IsUploadingWellFormed | src/components/forms/FileUpload.tsx:220 | When no stored error is empty, busy means exactly that some entry has no error at all. |
| UploadSlot.AdmittedBatchIsUploading | src/components/forms/FileUpload.tsx:81-84 | Appending a non-empty batch makes the slot busy. |
| UploadSlot.NewTasks | src/components/forms/FileUpload.tsx:81-84 | One entry per file, in order, each with its id, name and size, progress 0 and no error. |
| UploadSlot.Patched | src/components/forms/FileUpload.tsx:104-106 | A patch never changes an entry's id, name or size. Progress sets the percentage and keeps the error. A failure sets the message and resets progress to 0. |
| UploadSlot.PatchTasks | src/components/forms/FileUpload.tsx:132-136 | The `map` keeps the length. It patches every entry with the id and leaves every other entry equal. |
| UploadSlot.DropTasks | src/components/forms/FileUpload.tsx:124 | The `filter` never lengthens the list. |
| UploadSlot.DropAbsent | src/components/forms/FileUpload.tsx:192 | Dismissing an id no entry carries leaves the list unchanged. |
| UploadSlot.DropTasksMembers | src/components/forms/FileUpload.tsx:192 | An entry survives the `filter` exactly when it was there and carries another id. |
| UploadSlot.DropTasksAppend | src/components/forms/FileUpload.tsx:124 | Filtering distributes over concatenation. |
| UploadSlot.PatchTasksAppend | src/components/forms/FileUpload.tsx:141-145 | Patching distributes over concatenation. |
| UploadSlot.DropSingle | src/components/forms/FileUpload.tsx:191-193 | Dismissing the id of an entry that no other entry carries removes exactly that entry. |
| UploadSlot.DropAt | src/components/forms/FileUpload.tsx:191-193 | Dismissing an id that only position k carries removes exactly position k and keeps the rest in order. |
| UploadSlot.DropUnique | src/components/forms/FileUpload.tsx:191-193 | With distinct ids, dismissing removes exactly one position and keeps the others in order. |
| UploadSlot.DropPreservesDistinct | src/components/forms/FileUpload.tsx:124 | Filtering keeps ids distinct. |
| UploadSlot.FailureMessage | src/components/forms/FileUpload.tsx:126-131 | The failure message is never empty. It is the server's non-empty `error` when there is one, otherwise the default message. |
| UploadSlot.Report | src/components/forms/FileUpload.tsx:111-123 | A success reports a document exactly when the body parses. The document carries the temporary id, the file's name and size, and the body's path and url. |
| UploadSlot.WithIdAppend | src/components/forms/FileUpload.tsx:104-106 | Selecting one id's entries distributes over concatenation. |
| UploadSlot.PatchKeepsOthers | src/components/forms/FileUpload.tsx:104-106 | Patching one id leaves every other id's entries exactly as they were. |
| UploadSlot.DropKeepsOthers | src/components/forms/FileUpload.tsx:124 | Filtering one id leaves every other id's entries exactly as they were. |
| UploadSlot.StepKeepsOthers | src/components/forms/FileUpload.tsx:101-146 | An event addressed to one transfer never touches another transfer's entries. |
| UploadSlot.RunKeepsOthers | src/components/forms/FileUpload.tsx:101-146 | However the other transfers' events interleave, an entry's own state is untouched by them. |
| UploadSlot.PatchPatchCommute | src/components/forms/FileUpload.tsx:132-145 | Patches to two different ids commute. |
| UploadSlot.PatchDropCommute | src/components/forms/FileUpload.tsx:124-136 | A patch to one id and removal of another commute. |
| UploadSlot.DropDropCommute | src/components/forms/FileUpload.tsx:124 | Removals of two ids commute. |
| UploadSlot.StepCommute | src/components/forms/FileUpload.tsx:101-146 | Any two events for different transfers commute: the list does not depend on their order. |
| UploadSlot.PatchNoInvented | src/components/forms/FileUpload.tsx:104-106 | After a patch every entry is one of the old entries, same id, name and size. |
| UploadSlot.DropNoInvented | src/components/forms/FileUpload.tsx:192 | After a removal every entry is one of the old entries. |
| UploadSlot.StepNoInvented | src/components/forms/FileUpload.tsx:101-146 | No event invents or renames an entry. |
| UploadSlot.NoInventedRefl | src/components/forms/FileUpload.tsx:102 | A list is made only of its own entries (an ignored event changes nothing). |
| UploadSlot.RunNoInvented | src/components/forms/FileUpload.tsx:101-146 | Any sequence of events only rewrites progress and errors of existing entries or removes them. |
| UploadSlot.DropWellFormed | src/components/forms/FileUpload.tsx:191-193 | Removal keeps ids distinct and stored errors non-empty. |
| UploadSlot.PatchWellFormed | src/components/forms/FileUpload.tsx:140-146 | A patch with a non-empty message keeps ids distinct and stored errors non-empty. |
| UploadSlot.StepWellFormed | src/components/forms/FileUpload.tsx:101-146 | Every event keeps ids distinct and stored errors non-empty. |
| UploadSlot.RunWellFormed | src/components/forms/FileUpload.tsx:101-146 | Every sequence of events keeps ids distinct and stored errors non-empty. |
| UploadSlot.AppendWellFormed | src/components/forms/FileUpload.tsx:170-172 | Appending a batch under fresh, pairwise distinct ids keeps the list well formed. |
| UploadSlot.SuccessRemoves | src/components/forms/FileUpload.tsx:124 | After a 200 or 201, no entry with that id remains, whether or not the body parsed. |
| UploadSlot.ReportMatchesEntry | src/components/forms/FileUpload.tsx:81-124 | An appended entry whose id no other entry carries stays that request's transfer after any events: every entry with that id has the request's file name and size. A parsed success body reports exactly that entry. |
| UploadSlot.TrackedUnique | src/components/forms/FileUpload.tsx:81-84 | With distinct ids, an entry that events kept under the id of one position is that position's transfer, same name and size. |
| UploadSlot.FailureMarks | src/components/forms/FileUpload.tsx:125-146 | A failed status or a network error keeps the list's length. It marks each matching entry failed with progress 0; a network error uses "Erreur réseau". |
| UploadSlot.Slot.UploadFile | src/components/forms/FileUpload.tsx:78-151 | Appends the new entry, leaves `localError` alone, and issues the request for the slot's endpoint. |
| UploadSlot.Slot.ProcessFiles | src/components/forms/FileUpload.tsx:153-173 | A null list changes nothing. Otherwise the error is cleared. The first oversized file sets its message and starts nothing. An all-valid batch appends one entry and one request per kept file. |
| UploadSlot.Slot.UploadAll | src/components/forms/FileUpload.tsx:170-172 | One entry and one request per file, in order. |
| UploadSlot.Slot.OnProgress | src/components/forms/FileUpload.tsx:101-108 | The list becomes the progress step of the old list; a non-computable length is ignored. |
| UploadSlot.Slot.OnLoad | src/components/forms/FileUpload.tsx:110-138 | For the request `uploadFile` issued, the list becomes the load step of the old list. A document is reported only on success and only when the body parses, built from that request's id and file. |
| UploadSlot.Slot.OnNetworkError | src/components/forms/FileUpload.tsx:140-146 | The list becomes the network-error step of the old list. |
| UploadSlot.Slot.RemoveUploadingError | src/components/forms/FileUpload.tsx:191-193 | The list becomes the old list without the entries of that id. |
| FileSelection.FilterIndex | src/components/ui/file-upload.tsx:78 | Filtering by position drops exactly the one index in range and nothing otherwise. |
| FileSelection.RemoveAt | src/components/ui/file-upload.tsx:77-79 | In range, the selection shrinks by one, keeping the earlier files and shifting the later ones. Out of range, nothing changes. |
| FileSelection.Selection | src/components/ui/file-upload.tsx:50-54 | Multi-file mode appends the batch to the selection. Single-file mode keeps a prefix of the batch: its first file, or nothing for an empty batch. |
| FileSelection.MultipleKeepsSelection | src/components/ui/file-upload.tsx:51 | Nothing selected is lost, and the batch follows in order. |
| FileSelection.SingleDiscardsSelection | src/components/ui/file-upload.tsx:53 | The old selection does not matter. The result has at most one file; an empty batch empties the selection. |
| FileSelection.RemoveUndoesAdd | src/components/ui/file-upload.tsx:77-79 | Removing the file just appended restores the previous selection. |
| FileSelection.Picker.ValidateAndAdd | src/components/ui/file-upload.tsx:34-55 | A null list changes nothing. The first oversized file sets its message without calling `onChange`. Otherwise the error is cleared and the new selection is handed on. |
| FileSelection.Picker.RemoveFile | src/components/ui/file-upload.tsx:77-79 | The selection handed on is the old one without that position. |
| ApplicationSchema.Failing | src/lib/validations/application.ts:5-12 | A value fails no check exactly when it passes every check. |
| ApplicationSchema.FailingMembers | src/lib/validations/application.ts:5-12 | Exactly the checks the value fails are reported. |
| ApplicationSchema.AcceptsAllChecks | src/lib/validations/application.ts:5-37 | A shape accepts exactly when every check of every declared field passes on that field's value. |
| ApplicationSchema.ChecksDeclared | src/lib/validations/application.ts:5-31 | Every chain starts with a length check, `.min(100)` for the letter and `.min(1)` elsewhere. The email alone adds a second check, the format. |
| ApplicationSchema.Message | src/lib/validations/application.ts:5-31 | Every failed check has a non-empty message. The email's format failure has its own text, distinct from its required-field text. |
| ApplicationSchema.EmailFailingOrder | src/lib/validations/application.ts:8 | The email's failing checks come in declaration order, required before format. An empty invalid email reports "L'email est requis" then "Email invalide". |
| ApplicationSchema.Messages | src/lib/validations/application.ts:5-31 | One message per failing check, in order, each being the field's message for that check. |
| ApplicationSchema.Errors | src/lib/validations/application.ts:5-31 | The error map has exactly the failing fields, each with its messages. It is empty exactly when the schema accepts. |
| ApplicationSchema.RequiredFieldAccepts | src/lib/validations/application.ts:6-11 | A field with a single `.min(1)` passes exactly when it is non-empty. |
| ApplicationSchema.EmailFieldAccepts | src/lib/validations/application.ts:8 | The email passes exactly when it is non-empty and well formed. |
| ApplicationSchema.LetterFieldAccepts | src/lib/validations/application.ts:27-29 | The letter passes exactly with at least 100 characters. |
| ApplicationSchema.RequiredFieldsAccept | src/lib/validations/application.ts:16-22 | A shape of `.min(1)` fields accepts exactly when all its fields are non-empty. |
| ApplicationSchema.AcceptsSplit | src/lib/validations/application.ts:5-12 | A shape accepts exactly when one field passes and the rest of the shape accepts. |
| ApplicationSchema.Step1PlainAccepts | src/lib/validations/application.ts:6-11 | Step 1 without the email accepts exactly when first name, last name, phone, date of birth and nationality are non-empty. |
| ApplicationSchema.Step1Accepts | src/lib/validations/application.ts:5-12 | Step 1 accepts exactly when the five identity fields are non-empty and the email is non-empty and well formed. |
| ApplicationSchema.Step2Accepts | src/lib/validations/application.ts:16-22 | Step 2 accepts exactly when programme, rhythm, campus, current level and current school are non-empty. |
| ApplicationSchema.Step3Accepts | src/lib/validations/application.ts:26-31 | Step 3 accepts exactly when the letter has at least 100 characters and the discovery channel is non-empty. |
| ApplicationSchema.Step3LetterBoundary | src/lib/validations/application.ts:27-29 | A 99-character letter fails step 3; a 100-character one passes. |
| ApplicationSchema.Merge | src/lib/validations/application.ts:35-37 | The merged shape has both key sets; the second shape wins on a shared key. |
| ApplicationSchema.MergeAccepts | src/lib/validations/application.ts:35-37 | Merging shapes with disjoint keys accepts exactly what both accept. |
| ApplicationSchema.StepSchemasDisjoint | src/lib/validations/application.ts:5-31 | The three step shapes declare pairwise disjoint keys, so no check is overridden by the merge. |
| ApplicationSchema.FullSchemaAccepts | src/lib/validations/application.ts:35-37 | The full schema accepts exactly when all three step schemas accept. |
| ApplicationSchema.FullSchemaKeys | src/lib/validations/application.ts:35-39 | The full schema declares every field of the form. |
| ApplicationSchema.AllFieldsComplete | src/lib/validations/application.ts:39 | The field list names every field. |
| ApplicationSchema.StepFieldsMatchSchemas | src/lib/validations/application.ts:43-47 | The step table has exactly steps 1, 2 and 3, and each step lists its schema's keys, each once. |
| ApplicationSchema.StepFieldsCoverForm | src/lib/validations/application.ts:43-47 | The three lists are pairwise disjoint and together name every field. |
| ApplicationSchema.StepOf | src/lib/validations/application.ts:43-47 | Every field is listed under some step. |
| ApplicationSchema.StepFieldsPartition | src/lib/validations/application.ts:43-47 | A field is listed under one step only. |
| ApplicationSchema.SchemaReadsOnlyItsKeys | src/lib/validations/application.ts:5-31 | A shape's verdict and messages depend only on the fields it declares. |
| ApplicationSchema.StepReadsOnlyItsFields | src/lib/validations/application.ts:43-47 | Validating a step's fields gives the same verdict and messages whatever the other fields hold. |
| ApplicationSchema.CampusOptionsWellFormed | src/lib/validations/application.ts:73-77 | Each campus option shows its own value, and no value repeats. |
| ApplicationSchema.CurrentLevelOptionsWellFormed | src/lib/validations/application.ts:79-86 | Each level option shows its own value, and no value repeats. |
| ApplicationSchema.DiscoveryChannelOptionsWellFormed | src/lib/validations/application.ts:88-96 | Each discovery option shows its own value, and no value repeats. |
| ApplicationSchema.ProgramListsDistinct | src/lib/validations/application.ts:51-71 | No programme is listed twice within the bachelor or the master list. |
| RouteGuard.SomePrefix | src/middleware.ts:12-14 | A route class matches exactly when some listed route is a prefix of the path. |
| RouteGuard.Role | src/middleware.ts:32-34 | A string `app_metadata` role decides, the empty string included; a missing or null one falls back to `user_metadata`. |
| RouteGuard.IsAdminUser | src/middleware.ts:32-36 | The role check passes exactly when a string app role is ADMIN. With the app role missing or null, it passes exactly when the user role is ADMIN. |
| RouteGuard.Middleware | src/middleware.ts:8-42 | Login redirect (`redirectTo` = pathname) exactly for a guarded path with no user. Dashboard redirect exactly for an auth path with a user. Home redirect exactly for an admin path whose user is not ADMIN. |
| RouteGuard.PrefixClassification | src/middleware.ts:12-14 | Extending a path never leaves its route class. |
| RouteGuard.PrefixesAreNotSegments | src/middleware.ts:4-6 | `/administrator` is an admin path and `/applications` a protected one; `/` is in no class. |
| RouteGuard.AuthRoutesAreNotGuarded | src/middleware.ts:4-6 | No path is both an auth route and a protected or admin one. |
| RouteGuard.PassThroughExactly | src/middleware.ts:41 | The request passes exactly when no redirect rule applies. |
| RouteGuard.AnonymousNeverSentHomeOrDashboard | src/middleware.ts:16-21 | With no user the outcome is the login redirect or pass-through, never `/` or `/dashboard`. |
| RouteGuard.SignedInNeverSentToLogin | src/middleware.ts:17 | A signed-in user is never sent to the login page. |
| RouteGuard.AdminPasses | src/middleware.ts:31-39 | An ADMIN reaches every admin path. |
| RouteGuard.RedirectTargetsPass | src/middleware.ts:28-30 | Every redirect target passes for the same user, so no cycle of redirects can start. |
| RouteGuard.RoleFallback | src/middleware.ts:32-36 | A string app role decides even when it is empty; null and missing fall back. A non-ADMIN app role is not overridden by an ADMIN user role. |
| RouteGuard.NoRoleSentHome | src/middleware.ts:36-38 | A user with no role anywhere, missing or null, is sent home from admin paths. |

## Left out

- Network I/O is not modelled: the XHR upload, the DELETE `fetch`, headers, the token from `localStorage` and the API base URL. The response status, the parsed body, the transfer callbacks and the delete response's `ok` are inputs.
- Temporary ids are parameters. The source builds them from the clock and `Math.random` and does not guarantee they are unique. The model does not assume uniqueness either; `AppendWellFormed` states what fresh ids give.
- Progress is a given natural number. The source's floating-point `Math.round(loaded / total * 100)` is not modelled.
- `formatSize`'s numbers (`toFixed`) are not modelled; only its unit choice is.
- `FileLimits.MaxBytes`: `maxSizeMB` is a natural number. A fractional or negative prop value is not modelled. Sizes and limits are exact integers, so JavaScript numbers beyond 2^53 and the exponent notation a template literal uses from 10^21 on are not modelled.
- `UploadSlot.Body`: a JSON body whose `path`, `url` or `error` is not a string is not modelled. Neither is a body that parses to a non-object other than `null`.
- `UploadSlot.Endpoint`: inherited `Object.prototype` keys as document types (such as `constructor`) are not modelled.
- Zod's email format check is an uninterpreted predicate passed in. Its other internals are not modelled: message objects, issue paths, error ordering across fields.
- String lengths count Dafny characters. JavaScript counts UTF-16 code units, so a letter containing characters outside the Basic Multilingual Plane is measured differently.
- Every form value is a string. Non-string inputs, which zod rejects with a type error, are not modelled.
- The Supabase session lookup (`updateSession`) and the response objects are not modelled. The user is an input and the outcome a `Decision`; `redirectTo` is kept as the raw pathname, without URL encoding.
- A metadata `role` whose value is not a string is not modelled.
- The middleware's `config.matcher` is not modelled: the framework, not this code, interprets it.
- Drag state and all rendering are not modelled.
- The parents that receive `onUploadComplete`, `onDeleteComplete` and `onChange` are not modelled. The picker keeps what it hands on as its own selection.
- The multi-step page that uses `stepFields` and submits the form is not part of this model.
- `UploadSlot.Slot.ProcessFiles` does not state that it keeps the list's ids distinct. `AppendWellFormed` proves that for the appended batch under fresh ids.
- Concurrent transfers are modelled as events applied one at a time to one list.
