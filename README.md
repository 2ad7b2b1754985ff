# Damn Fine Uploader: upload session and submitted-file reconciliation, in Dafny

This project models two parts of the SilverStripe "damn fine uploader" module.

**The browser-side upload field** (`client/src/js/loader.js`). It reads the field's
JSON configuration and fills in defaults: HTTP method, form encoding, limits, accepted
types, image bounds, notification and presign URLs. It then reacts to the uploader's
events for each file:

- it blocks and releases the form's submit;
- it asks for a presigned endpoint per file; when none comes back the model drops the file and shows an error, as the code intends (see `PresignResolved` under "Left out" for what the code as written does);
- it checks a decoded image against its bounds, where the first broken bound wins;
- it records each finished upload as a hidden form entry `file id -> URI`.

The state lives in one class, `Loader.UploadSession`, with one method per event.
Its pure decisions are functions in `LoaderConfig` and `LoaderRules`.

**The server-side submitted field** (`src/Traits/SubmittedDamnFineUploader.php`).
`setValue` turns the submitted file ids into file records. It looks each id up
together with the request's security token, attaches each record found to `Files`
and protects it. `getExportValue` and `getFormattedValue` render the attached files.
This part is the class `SubmittedUploader.SubmittedField`. The file database is a
lookup map passed in as a parameter.

Files:
- `wrappers.dfy`: `Option`.
- `strings.dfy`: JavaScript `split` on one character and `join`/`implode`, with both round trips.
- `loader_config.dfy`: the raw configuration and `Normalise`.
- `loader_rules.dfy`: the dimension check, the message fallback and the effective URI.
- `loader_session.dfy`: the session class, plus four client scenarios that call its event methods and check the resulting state.
- `submitted_uploader.dfy`: the submitted field.

## What the code does, as modelled

- JavaScript truthiness is written out. An absent or empty string option counts as
  absent, and so does an absent or zero number. So `sizeLimit: 0` means no limit,
  and `maxWidth: 0` means the bound is not checked.
- Submit blocking is NOT "blocked exactly while some file is unfinished":
  - `file-added` blocks;
  - `complete`, `error` and `cancel-all` always release;
  - `file-removed` releases only when the uploader holds no file;
  - `upload-success` and `upload-error` leave the flag alone.

  The invariant the code keeps is weaker: the form is never blocked while the
  uploader holds no file (`UploadSession.Valid`). The scenario `RemovalKeepsBlockScenario`
  shows the other side. A file uploads and its batch completes. A second file is added
  and then removed. Submit stays blocked, because the uploaded file is still listed.
- There is no configuration error. A missing `request.uuidName` makes the meta key
  the JavaScript property name `"undefined"`. A missing `request.endpoint` is passed on as absent.
- Removing a file does not erase its hidden entry. Only `upload-error` erases an entry.
- The token check on the server uses PHP truthiness, so a token of `"0"` counts as no token.

## Model

| member | source | states |
|---|---|---|
| `LoaderConfig.HttpMethod` | client/src/js/loader.js:23 | the method is `POST` unless a non-empty method is configured, in which case it is that method |
| `LoaderConfig.Limit` | client/src/js/loader.js:37-38 | a size or count limit is present exactly when configured non-zero, and then equals the configured value |
| `LoaderConfig.Bound` | client/src/js/loader.js:42-45 | an absent image bound becomes 0; a present one keeps its value (0 when configured 0) |
| `LoaderConfig.Url` | client/src/js/loader.js:54-55 | a notification or presign URL is present exactly when configured non-empty, and then equals the configured URL |
| `LoaderConfig.AllowedTypes` | client/src/js/loader.js:40 | without `acceptFiles` the types are `["image/*"]`; with it they are comma-free, at least one, and join back with commas to exactly `acceptFiles` |
| `LoaderConfig.AllowedTypesExact` | client/src/js/loader.js:40 | the comma split is the only comma-free list that joins back to `acceptFiles` |
| `LoaderConfig.UuidKey` | client/src/js/loader.js:196 | the meta key is the configured `uuidName` when there is one, and the property name `"undefined"` when it is absent |
| `LoaderConfig.Normalise` | client/src/js/loader.js:19-55 | method defaults to POST; form encoding for every method except `PUT`; meta is the params object or empty; no minimum file count; each of method, limits, types, bounds, URLs, endpoint and uuid key is the value the helpers above give for the configured member; message templates kept as given |
| `LoaderRules.DimensionViolation` | client/src/js/loader.js:208-223 | the result is a broken bound, with no bound earlier in the order max width, max height, min width, min height broken; no result means no bound is broken; a bound of 0 is never broken |
| `LoaderRules.MessageOrGeneric` | client/src/js/loader.js:225-228 | the message is never empty: the template when it is non-empty, otherwise "The image does not match the allowed dimensions" |
| `LoaderRules.DimensionRejection` | client/src/js/loader.js:206-234 | an image is rejected exactly when it breaks some bound; the message is non-empty and is the message (or generic fallback) of the first broken bound in the order max width, max height, min width, min height |
| `LoaderRules.MaxWidthReportedFirst` | client/src/js/loader.js:211-213 | breaking max width always reports the max-width message, whatever else is broken |
| `LoaderRules.EffectiveUri` | client/src/js/loader.js:92-98 | the URI is the file's endpoint when non-empty, else the response `uuid`; it is empty exactly when both are |
| `LoaderRules.UnconfiguredBoundsAccept` | client/src/js/loader.js:211-222 | with no image bound configured, no image size is rejected |
| `LoaderRules.WideShortImage` | client/src/js/loader.js:211-223 | an 1000x50 image against max width 800 and min height 100 gets only the max-width message |
| `Loader.UploadSession.constructor` | client/src/js/loader.js:14-55 | the session starts with the normalised configuration, no files, no entries, submit released, and empty logs |
| `Loader.UploadSession.RemoveFile` | client/src/js/loader.js:141-148 | removes only that file (no-op if absent); submit is released exactly when no file remains, otherwise unchanged; entries and logs unchanged |
| `Loader.UploadSession.FileAdded` | client/src/js/loader.js:150-197 | submit is blocked; the new file's endpoint is cleared when a presign URL is configured; its meta gets `uuidName -> id`; no other file, entry or log changes |
| `Loader.UploadSession.PresignResolved` | client/src/js/loader.js:172-190 | a non-empty URL becomes that file's endpoint and nothing else changes; an empty one removes that file, shows the system-error message and releases submit if no file remains |
| `Loader.UploadSession.ImageLoaded` | client/src/js/loader.js:206-238 | on a broken bound the file is removed and exactly the rejection message is shown; otherwise nothing changes |
| `Loader.UploadSession.UploadSuccess` | client/src/js/loader.js:90-107 | one success notice with the effective URI; the entry `id -> uri` is written only when the URI is non-empty; files and submit unchanged |
| `Loader.UploadSession.UploadError` | client/src/js/loader.js:110-122 | one failure notice with the effective URI; the file's entry is erased; files and submit unchanged |
| `Loader.UploadSession.SessionError` | client/src/js/loader.js:124-127 | submit is released; nothing else changes |
| `Loader.UploadSession.Complete` | client/src/js/loader.js:129-134 | one completion notice with the batch result; submit is released |
| `Loader.UploadSession.CancelAll` | client/src/js/loader.js:136-139 | submit is released; nothing else changes |
| `Strings.Split` | client/src/js/loader.js:40 | at least one piece, no piece holds the separator, at most one more piece than characters |
| `Strings.JoinSplit` | client/src/js/loader.js:40 | joining the pieces of a split with the separator gives back the string |
| `Strings.SplitJoin` | src/Traits/SubmittedDamnFineUploader.php:77 | splitting a join of separator-free parts gives back the parts |
| `SubmittedUploader.SecurityTokenName` | src/Traits/SubmittedDamnFineUploader.php:13-19 | the token's POST variable is "SecurityID" unless another name is configured |
| `SubmittedUploader.SecurityTokenValue` | src/Traits/SubmittedDamnFineUploader.php:15-22 | the token is present exactly when the request posts that variable, and is its value |
| `SubmittedUploader.Attachable` | src/Traits/SubmittedDamnFineUploader.php:35-36 | an id yields a record exactly when the lookup under the token finds one with a non-empty ID |
| `SubmittedUploader.Resolved` | src/Traits/SubmittedDamnFineUploader.php:33-40 | no more records than submitted ids, each with a non-empty ID |
| `SubmittedUploader.ResolvedMembers` | src/Traits/SubmittedDamnFineUploader.php:33-37 | a record is attached exactly when some submitted id resolves to it under the token; unmatched ids are skipped |
| `SubmittedUploader.Attach` | src/Traits/SubmittedDamnFineUploader.php:37 | appends exactly that record when its ID is not listed, and changes nothing when it is; keeps IDs distinct |
| `SubmittedUploader.AttachAll` | src/Traits/SubmittedDamnFineUploader.php:33-40 | the old list is a prefix of the new; the IDs are the old ones plus the attached ones; IDs stay distinct |
| `SubmittedUploader.AttachSubmitted` | src/Traits/SubmittedDamnFineUploader.php:33-40 | the loop attaches the resolved records in order and protects exactly their IDs besides those already protected |
| `SubmittedUploader.SubmittedField.SetValue` | src/Traits/SubmittedDamnFineUploader.php:30-43 | without a non-empty id array or a truthy token nothing changes; otherwise resolved records are attached and exactly their IDs become newly protected; files are only ever added; returns the field itself |
| `SubmittedUploader.SubmittedField.ExportValue` | src/Traits/SubmittedDamnFineUploader.php:71-78 | the absolute URLs in `Files` order joined by `\|`; empty when there are no files; splitting on `\|` gives back one URL per file when no URL holds `\|` |
| `SubmittedUploader.SubmittedField.FormattedValue` | src/Traits/SubmittedDamnFineUploader.php:51-64 | exactly one `Name - <a href="URL" target="_blank">title</a>` entry per file, in order, joined by `<br/>`; empty when there are no files |

## Left out

- The uploader library, its dashboard and its XHR transport (client/src/js/loader.js:4-6, 57-88) are foreign code. The size, count and type restrictions are only normalised here, because the library enforces them. The transport's method, encoding, field name and endpoint are configuration only.
- The `DFU` helper object is not part of this model. Its effects are modelled abstractly:
  - `notify` and `notifyComplete` append to the `notices` log;
  - `appendField` and `removeField` update the `fields` map, where appending for an id that already has an entry replaces it;
  - `handleSubmit` and `handleUnblock` set `submitBlocked`, for a form with one upload field;
  - `setPresignedUrl` is the `PresignResolved` event;
  - `isImage` decides whether `ImageLoaded` ever arrives for a file.
- Network calls, timing and the interleaving of presign and image decoding are not modelled. Each completion is one method call for one file id.
- Image decoding and object URLs are not modelled: the image size is a parameter. The source creates an object URL for every image (line 203) but revokes it only on the rejection path (line 235).
- `Loader.UploadSession.UploadError` records the failure notice with the intended values. Line 119 passes one argument fewer than line 101, so the helper receives them shifted.
- `Loader.UploadSession.UploadSuccess` assumes `file.xhrUpload` and `response.body` are objects. `FileAdded`'s `endpoint` parameter stands for the `file.xhrUpload.endpoint` the library provides, and an empty string stands for none. If either object is missing, lines 93 and 96 throw, before the notice and the field entry.
- `Loader.UploadSession.UploadError` makes the same assumption. If either object is missing, lines 112 and 115 throw, before the notice and the removal of the field entry.
- `Loader.UploadSession.PresignResolved` follows the intended removal path of lines 183-188. As written, line 182 assigns the undeclared `message` inside an ES module, which runs in strict mode, so an empty presign result throws a ReferenceError there. `removeFile` and `info` never run: the file stays held with the endpoint cleared on adding it, no message is shown, and submit stays blocked. The model does not capture that outcome.
- The source throws where a configuration group or `validation.image` is missing. The model's configuration type always has them. A `null` params value is treated as "not an object".
- `uppy.info` durations and message types are not modelled. `infos` keeps the message texts only.
- `Loader.UploadSession.FileAdded` requires a new file id, and `UploadSuccess` and `UploadError` require a held file. The uploader only reports events of that kind. Setting a presigned endpoint on a removed file, which throws in the library, changes nothing here. Removing an absent file is assumed to change nothing.
- `Loader.UploadSession.CancelAll` only releases submit. The library's own removal of every file arrives as separate `RemoveFile` calls.
- The ORM calls in `src/Traits/SubmittedDamnFineUploader.php` are modelled abstractly:
  - `getByDfuToken` is a lookup map from (id, token) to a record;
  - `Files()->add` appends a record whose ID is not yet listed, like a many-many list does;
  - `protectFile` adds the record's ID to `protectedIds`.
- `Files` is iterated in the order records were attached. The ORM's default sort is not modelled.
- `Controller::curr()` and the request become the POST-variable map. The configuration system becomes the constructor's optional token name. The translated title `_t('DamnFineUploader.DOWNLOAD_FILE', 'Download file')` is the `title` parameter of `FormattedValue`; translation is not modelled. `DBField` HTML wrapping is omitted. File name, URL and absolute URL are fields of the record.
- A JSON `null` in the configuration is read as an absent member. For `uuidName` the source would then use the key `"null"`, not `"undefined"`.
- The submitted ids are the array's values in order. Array keys and non-string elements are not modelled.
- src/Fields/FineUploaderField.php is not part of this model: it only wires script and style requirements and returns a constant.
- src/Models/SubmittedFineUploaderField.php is not part of this model: it only declares a table name and the `Files` relation.
