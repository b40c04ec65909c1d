# Huacaya media ingestion, modelled in Dafny

This project models the media-file ingestion core of the Huacaya Drupal
module, together with its settings form:

- `MediaSourceService` finds a media's source field and source file. It
  overwrites a file's bytes at its URI, handling the zero-byte and
  copy-failure cases. It attaches a new permanent file to a named media
  field, with the checks in a fixed order. It replaces a media's source
  bytes and re-derives the mapped metadata fields.
- `MediaSourceController::attachToMedia` checks the two required headers,
  starts a transaction and calls `putToMedia`. It rolls back on exceptions
  and maps them to HTTP errors. `attachToMediaAccess` is the route's access
  decision.
- `HuacayaSettingsForm` validates the broker password (falling back to the
  stored one) and the JWT expiry string (a chain of four checks in a fixed
  order). On submit it updates the `huacaya.settings` configuration.

Layout:

- `php.dfy`: the PHP semantics the code relies on: scalar values, truthiness,
  `empty()`, `trim()`, `strtolower()`.
- `http.dfy`: HTTP exceptions, other exceptions, PHP engine errors, responses.
- `drupal.dfy`: the host.
  - Entity data: File, Media fields, media types.
  - The byte store, the derivative cache and the entity tables, as one
    `World` value and as the mutable `Site` object.
  - The journal of side effects, in order.
  - File and media saves.
- `media_source_service.dfy`, `media_source_controller.dfy` and
  `huacaya_settings_form.dfy` model the three core classes.

Each state-changing operation appears twice. A pure `...Outcome` function
over `World` gives the result, the new state and the properties the code
promises. A method on the mutable objects (`Site`, `Media`, `FormState`,
`Config`) performs the operation step by step, as the PHP does, and is
proved to end in exactly the state the function gives.

Where the code and its documentation disagree, the model follows the code:

- A successful `attachToMedia` answers with status 200. The code builds a
  plain `Response`; the doc comment (MediaSourceController.php:77) promises 201.
- A destination field with no field configuration makes `putToMedia` call a
  method on null. That is a PHP `Error`, not an `Exception`. The
  controller's `catch (\Exception $e)` does not catch it, so nothing is
  rolled back; the model lets it pass through and the transaction commits
  (`NoFieldConfigCommits`).
- The transaction restores database rows only. Bytes written to the store
  stay there after a rollback (`RollbackKeepsBytes`).
- When `updateSourceField` is given a zero-byte body, the old bytes are
  lost: the file was already truncated when it was opened, and it is then
  unlinked.
- In the field-map loop, `$value` survives from one iteration to the next.
  When the media lacks a destination field, `&&` short-circuits and
  `$value` is not reassigned. The width or height written on the
  source-field item is then the previous iteration's value, or null on the
  first (`StaleHeight`).

## Model

| member | source | states |
|---|---|---|
| MediaSource.GetSourceFieldName | src/MediaSource/MediaSourceService.php:81-94 | an unknown bundle is a 404 "Bundle X does not exist"; a bundle without `source_field` gives null, not an error; otherwise the configured name |
| MediaSource.FirstReferenced | src/MediaSource/MediaSourceService.php:116-117 | `reset()` of the referenced entities is false exactly when no item references a saved file, otherwise the file of the first referencing item |
| MediaSource.GetSourceFile | src/MediaSource/MediaSourceService.php:107-120 | lookup errors propagate; an empty or null source field name is a 404 "Source field not set for B media"; a field the media lacks throws; otherwise the first referenced file or false |
| MediaSource.UpdateFileOutcome | src/MediaSource/MediaSourceService.php:174-202 | unopenable URI: 500 before anything is written; copy failure: 500 with the partial bytes left; zero bytes: URI removed and 400; on every failure the File is unchanged; on success the bytes are stored, the MIME type is set iff the given one is non-empty, and the derivatives of the URI are flushed after the write |
| MediaSource.PutToMediaOutcome | src/MediaSource/MediaSourceService.php:221-267 | missing destination field: 400, nothing created or written; destination without field configuration: a PHP error before any side effect; refused extension: 400 naming the valid extensions, before any directory or write; directory failure: 500 before any write; success iff every check passes; on success the bytes are stored, a new permanent File with the next id, the account's uid, the URI, its basename and the MIME type is saved after the write, the field references it and the media is saved once, in the order write, flush, file save, media save; an empty body past every check unlinks the truncated file and is a 400; a failure never saves the media row |
| MediaSource.PutToMediaFailures | src/MediaSource/MediaSourceService.php:255-263 | once the checks pass, a failed write is `updateFile`'s error with its effects on the store kept; a File save fault is thrown with the written bytes kept; a media save fault is thrown with the bytes and the new File row kept and the field pointing at that row |
| MediaSource.MapStep | src/MediaSource/MediaSourceService.php:148-159 | one field-map iteration: `$value` is reassigned only when the media has the destination field; for width and height the source item's property is set to `$value` whatever it holds; no other field changes |
| MediaSource.NewFile | src/MediaSource/MediaSourceService.php:230-236 | the File built for the upload is unsaved (no id) and permanent, owned by the current account, at the Content-Location, named by its basename, with the given MIME type |
| MediaSource.ApplyFieldMap | src/MediaSource/MediaSourceService.php:148-159 | the whole field-map loop adds or removes no field of the media, and the source field keeps a first item |
| MediaSource.ApplyFieldMapByEdit | src/MediaSource/MediaSourceService.php:148-159 | after the loop, `$value` is the metadata of the last entry whose destination the media has (or its initial value), and the source field is its old items under one edit: replaced by the last truthy value mapped onto it, then width and height set from `$value` |
| MediaSource.ApplyFieldMapSetsLastTruthy | src/MediaSource/MediaSourceService.php:148-152 | after the loop, a field other than the source field holds the last truthy metadata value mapped to it, or is untouched when none is |
| MediaSource.ApplyFieldMapIdempotent | src/MediaSource/MediaSourceService.php:148-159 | running the field map again over its own result changes no field, the source field's width and height included |
| MediaSource.StaleHeight | src/MediaSource/MediaSourceService.php:149-157 | for any two destination fields, with width mapped to one the media has and height mapped to one it lacks, the source item's height becomes the width metadata |
| MediaSource.ReplaceSourceOutcome | src/MediaSource/MediaSourceService.php:143-161 | the bytes are written and the file saved before any media field changes; a failed write is `updateFile`'s error, a File or media save fault is thrown with the bytes (and, for a media save fault, the File row) kept, and no failure changes a media row; on success the media's fields are the field-map result and the media is saved once, last; a zero-byte body removes the URI and is a 400 |
| MediaSource.UpdateSourceFieldOutcome | src/MediaSource/MediaSourceService.php:134-162 | every lookup failure (unknown bundle, unset source field, a source field the media lacks) is thrown as it is and changes nothing; no referenced file is a PHP type error; otherwise the outcome of replacing the found file's bytes; success implies the source file was found |
| MediaSource.SourceFileIsSaved | src/MediaSource/MediaSourceService.php:107-120 | a source file that is found is a saved File row under its own id, and the source field has a first item |
| MediaSource.MediaSourceService.UpdateFile | src/MediaSource/MediaSourceService.php:174-202 | performs `updateFile` on the store and ends in the state and File `UpdateFileOutcome` gives |
| MediaSource.MediaSourceService.PutToMedia | src/MediaSource/MediaSourceService.php:221-267 | performs `putToMedia` on the store and the Media object and ends in the state `PutToMediaOutcome` gives |
| MediaSource.MediaSourceService.UpdateSourceField | src/MediaSource/MediaSourceService.php:134-162 | performs `updateSourceField` and ends in the state `UpdateSourceFieldOutcome` gives |
| MediaSource.MediaSourceService.ReplaceSource | src/MediaSource/MediaSourceService.php:143-161 | writes and saves the file, runs the loop, saves the media, ending in the state `ReplaceSourceOutcome` gives |
| MediaSource.MediaSourceService.MapFields | src/MediaSource/MediaSourceService.php:148-159 | the `foreach` loop on the Media object, with the loop-carried `$value`, ends with the fields `ApplyFieldMap` gives |
| Drupal.Site.Open | src/MediaSource/MediaSourceService.php:177-180 | `fopen($uri, 'wb')` fails exactly on an unwritable URI and then changes nothing; otherwise the URI is truncated to no bytes |
| Drupal.Site.Fill | src/MediaSource/MediaSourceService.php:182 | the copied bytes become the URI's contents and nothing else changes |
| Drupal.Site.Unlink | src/MediaSource/MediaSourceService.php:192 | the URI is removed from the store |
| Drupal.Site.Flush | src/MediaSource/MediaSourceService.php:201 | the URI's cached derivatives are dropped and nothing else changes |
| Drupal.SaveFileOutcome | src/MediaSource/MediaSourceService.php:256 | a new File gets the counter's next id, which no saved row has, and the counter moves on; an existing File keeps its id; a storage fault throws and writes nothing |
| Drupal.SaveMediaOutcome | src/MediaSource/MediaSourceService.php:262 | the media row is written, or a storage fault throws and writes nothing |
| Drupal.Site.SaveFile | src/MediaSource/MediaSourceService.php:144 | `$file->save()` on the store ends in exactly the state and File `SaveFileOutcome` gives |
| Drupal.Site.SaveMedia | src/MediaSource/MediaSourceService.php:161 | `$media->save()` on the store ends in exactly the state `SaveMediaOutcome` gives |
| Controller.Rethrown | src/Controller/MediaSourceController.php:112-119 | an HttpException leaves unchanged; any other exception becomes a 500 with the same message |
| Controller.Conclude | src/Controller/MediaSourceController.php:101-119 | success answers "<h1>Complete</h1>" and commits; an exception rolls File and Media rows back to the snapshot and is rethrown as `Rethrown` says; a PHP error passes through unrolled; any raised outcome leaves the rows as they were |
| Controller.AttachToMediaOutcome | src/Controller/MediaSourceController.php:82-120 | a missing Content-Location is a 400, checked first; then a missing Content-Type is a 400; neither starts a transaction or changes anything; otherwise `putToMedia` runs after the transaction began, with body, Content-Type and Content-Location in that order; a failed request leaves no File or Media row changed |
| Controller.AttachCompletes | src/Controller/MediaSourceController.php:97-110 | a request answered Complete had both headers and a non-empty body, stored its bytes, and its effects were begin, write, flush, file save, media save, commit |
| Controller.NoFieldConfigCommits | src/Controller/MediaSourceController.php:99-119 | with both headers present and no field configuration for the destination, the PHP error escapes both catch clauses: it is raised as it is, nothing is rolled back and the transaction commits |
| Controller.RollbackKeepsBytes | src/Controller/MediaSourceController.php:97-119 | when the media save fails, the reply is a 500 with its message and the rows are rolled back, but the written bytes stay at the location |
| Controller.AttachToMediaAccess | src/Controller/MediaSourceController.php:133-136 | allowed iff the media grants `update` to the account, never forbidden |
| Controller.Transaction.Start | src/Controller/MediaSourceController.php:99 | starting the transaction snapshots the File and Media rows and changes nothing else |
| Controller.Transaction.RollBack | src/Controller/MediaSourceController.php:113-117 | the File and Media rows go back to the snapshot; the bytes and derivatives stay as they are |
| Controller.Transaction.Commit | src/Controller/MediaSourceController.php:101-110 | the transaction ends without a rollback and every change stays |
| Controller.MediaSourceController.AttachToMedia | src/Controller/MediaSourceController.php:82-120 | performs `attachToMedia` with a Transaction object and ends in the reply and state `AttachToMediaOutcome` gives |
| Form.CheckExpiry | src/Form/HuacayaSettingsForm.php:177-209 | on the trimmed, lower-cased string: not a time iff `strtotime` fails; negative, no number and no unit each only when every earlier check passed; accepted iff all four checks pass |
| Form.CheckExpiryIgnoresPaddingAndCase | src/Form/HuacayaSettingsForm.php:177-178 | padding and letter case never change the verdict |
| Php.Trim | src/Form/HuacayaSettingsForm.php:177 | `trim()` gives a string with no strippable character at either end and never a longer one |
| Php.ToLower | src/Form/HuacayaSettingsForm.php:178 | `strtolower()` keeps the length, maps every upper-case ASCII letter to its lower-case one and keeps every other character |
| Php.TrimKeepsMiddle | src/Form/HuacayaSettingsForm.php:177 | `trim()` keeps a contiguous middle part of the expiry and drops only strippable characters before and after it |
| Php.NormalizeIdempotent | src/Form/HuacayaSettingsForm.php:177-178 | trimming and lower-casing an already normalized expiry changes nothing |
| Form.TimeIntervalsAreLetters | src/Form/HuacayaSettingsForm.php:23-33 | every accepted unit is a non-empty word of lower-case letters |
| Form.UnitAccepted | src/Form/HuacayaSettingsForm.php:201 | a number, a space and any accepted unit, singular or plural, passes the unit check |
| Form.NoLetterNoInterval | src/Form/HuacayaSettingsForm.php:201 | a string without a lower-case letter never passes the unit check |
| Form.UnitFollowedByWordChar | src/Form/HuacayaSettingsForm.php:201 | a unit followed by a word character does not match there, unless that character is an "s" that itself ends the word ("1 weekend", "5 dayz", "3 secsx") |
| Form.Login | src/Form/HuacayaSettingsForm.php:146-159 | a login is set iff the client was built and credentials are requested; the user is the submitted one; the password is the submitted one when non-empty, else the stored one when one is stored, else the blank submitted one |
| Form.ValidationReport | src/Form/HuacayaSettingsForm.php:141-210 | a password error iff the client was built, credentials are requested and neither a submitted nor a stored password exists; a broker error iff the probe fails; an expiry error iff the checks reject it, with the first failing check's message; no other field gets an error |
| Form.HuacayaSettingsForm.ValidateForm | src/Form/HuacayaSettingsForm.php:141-210 | performs `validateForm` on the form state, setting the errors `ValidationReport` describes, and returns the login |
| Form.HuacayaSettingsForm.ValidateExpiry | src/Form/HuacayaSettingsForm.php:176-209 | the if/elseif chain sets exactly the error `CheckExpiry` decides |
| Form.Submitted | src/Form/HuacayaSettingsForm.php:215-240 | unchecked credentials clear user and password; checked credentials set the user, and the password only when a non-empty one different from the stored one is given, else the stored one is kept; URL and expiry are stored raw; no other key changes |
| Form.FormState.SetErrorByName | src/Form/HuacayaSettingsForm.php:153 | the error is recorded under the element's name as `Record` describes |
| Form.Config.Clear | src/Form/HuacayaSettingsForm.php:223-224 | the key is removed from the editable configuration; nothing is saved |
| Form.Config.Set | src/Form/HuacayaSettingsForm.php:227-236 | the key takes the value in the editable configuration; nothing is saved |
| Form.Config.Save | src/Form/HuacayaSettingsForm.php:237 | the stored configuration becomes the edited one |
| Form.HuacayaSettingsForm.SubmitForm | src/Form/HuacayaSettingsForm.php:215-240 | performs `submitForm` on the config and saves exactly the configuration `Submitted` gives |
| Form.HuacayaSettingsForm.constructor | src/Form/HuacayaSettingsForm.php:48-53 | the stored password is the configuration's `broker_password`, or null |

## Left out

- Stream I/O is modelled as a `Body` value: the bytes that were copied, or a failure after some partial bytes. File handles, `fclose` and blocking are not modelled.
- Database transactions are modelled as a snapshot of the File and Media rows, restored on rollback. Isolation and locking are not modelled.
- Concurrent requests are not modelled: the code does nothing to coordinate them.
- The broker probe in `validateForm` is network I/O. It is the `Probe` value: the client constructor rejected the URL, subscribing failed, or the broker was reached.
- `strtotime`, `intval`, `file_validate_extensions`, `prepareDirectory`, `basename`, `dirname` and the source plugin's `getMetadata` are given functions, not reimplementations. `getMetadata` is keyed by the metadata name only; it does not see the media's fields as the loop changes them.
- `image_path_flush` is modelled as removing the URI from a set of cached derivatives.
- Storage faults in entity saves are inputs (`Host.fileSaveFault`, `Host.mediaSaveFault`). Such a fault happens before anything is written.
- The route's access check reads `$media->access('update', $account)`. It is a given function of the media id and the account.
- PHP's loose `!=` is modelled as exact string comparison. This matters for numeric-looking passwords ("1e3" and "1000" compare equal in PHP).
- Request headers are a map keyed by lower-case names, the form Symfony's header bag stores them in. The folding of incoming names to lower case is not modelled.
- `$media->set($field, $value)` stores the value under the item's `value` property. Field types whose main property has another name are not distinguished.
- Translation and placeholder escaping of form messages are not modelled: messages are plain strings.
- A `target_id` is an integer value. A numeric string stored as a `target_id`, which Drupal would load as that id, is not treated as a reference by `TargetOf`.
- The status message `parent::submitForm` shows after saving ("The configuration options have been saved.") is not modelled; it changes no configuration.
- `HuacayaSettingsForm::buildForm` (render arrays) is not part of this model.
- `src/StompFactory.php` builds a STOMP client and is not part of this model.
- `src/HuacayaUtils.php` builds URLs through Drupal routing and is not part of this model.
- `src/Plugin/Action/AbstractGenerateDerivativeBase.php` is constructor plumbing and is not part of this model.
