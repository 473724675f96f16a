# youtube-playlist-export, modelled in Dafny

This project models the pipeline at the heart of `ytpl-export`. The pipeline fetches every video of a YouTube playlist through the YouTube Data API and projects each video onto the fields the user chose to export. It then writes the result as a dated JSON or CSV file. The project proves properties of that model.

The modelled parts are:

- **`getValue`** in its two generations. `source/utils/index.js` has the current version, which never answers `undefined`. `utils/index.js` has the older one, which can. Both are a fold over the dotted key path (`key_path.dfy`). They work over a small JSON value type whose objects keep insertion order (`json.dfy`).
- **The API client** of `source/lib/api.js` (`api.dfy`, `api_properties.dfy`):
  - the export-item table `exportItemsMap`;
  - `throwError` and `validateApiKey`;
  - the result shape of `getPlaylistMetadata`;
  - `getPlaylistData`, imperative as in the source: a page loop that threads `nextPageToken`, a per-page `forEach` that classifies items as private or deleted and applies the skip setting, and an inner `forEach` that fills each entry field by field with its overrides.

  The YouTube API is a `Server` function. It answers one page request (playlist id and continuation token) with a page of raw items or an HTTP error.
- **File export** of `utils/saveFile.js` (`save_file.dfy`):
  - `getExportFileName` (name sanitisation, date prefix, extension), as pure functions;
  - `saveFile`, as an imperative method over a `FileSystem` object holding a set of directories and a map of files. Failures of `mkdirSync` and `writeFileSync` are given as sets of failing paths.
- **The settings store** of `lib/Config.js` (`config.dfy`). It is a `Config` class over a mutable map, with the schema defaults, the `apiKey` accessor pair, `removeApiKey`, `resetAll` and the `getExportItemsDefaults` loop.
- **The `id` command** of `source/commands/id.js` (`id_command.dfy`):
  - `handleApiError`;
  - the early-return sequence of `idActionHandler`, as an imperative method. It is proved against a decision function `Decide` that names the step the handler stops at. Each early exit, and the success path, are then stated as lemmas about `Decide`.

## Model

| member | source | states |
|---|---|---|
| JsonValues.LookupSpec | source/utils/index.js:13 | `obj[key]` is `undefined` exactly when no own field has the key; otherwise the first field with that key answers |
| KeyPath.JoinSplit | source/utils/index.js:11 | `split(".")` loses nothing: joining the segments with "." gives the path back |
| KeyPath.SplitSegmentsHaveNoDots | source/utils/index.js:11 | no segment of `split(".")` contains a dot |
| KeyPath.SplitAppend | source/utils/index.js:11 | splitting `p + "." + q` gives the segments of `p` followed by those of `q` |
| KeyPath.GetValue | source/utils/index.js:10-17 | no contract of its own: the fold of the reduce callback `Step` over `Split(keyPath)`; its properties are stated by KeyPath.GetValueOneStep, GetValueOneKey, GetValueComposes, GetValueFalsyRoot, GetValueAfterFalsy and GetValueMissingKey |
| KeyPath.GetValueOneStep | source/utils/index.js:11-16 | a path without dots takes exactly one step of the reduce callback |
| KeyPath.GetValueOneKey | source/utils/index.js:10-16 | a one-segment path on an object returns the stored value, falsy values such as 0 included, and `null` for a key the object does not hold |
| KeyPath.GetValueComposes | source/utils/index.js:11-16 | fold composition: `getValue(o, p + "." + q) == getValue(getValue(o, p), q)` for every root |
| KeyPath.GetValueFalsyRoot | source/utils/index.js:12-15 | a falsy root (`null`, 0, "", false) yields `null` for every path |
| KeyPath.GetValueAfterFalsy | source/utils/index.js:12-15 | once the value reached at `p` is falsy, every longer path yields `null` |
| KeyPath.GetValueMissingKey | source/utils/index.js:13 | a key the object does not hold, at any depth, yields `null`, never `undefined` |
| KeyPath.GetValueSampleTopLevel | source/utils/index.js:10-16 | on the test sample `{foo: 0, bar: {baz: [1, 2]}}`, "foo" gives 0 and "hi" gives `null` |
| KeyPath.GetValueSampleNested | source/utils/index.js:5-8 | "bar.baz" gives `[1, 2]` and "bar.hi" gives `null` |
| KeyPath.GetValueSampleBelowFalsy | source/utils/index.js:12-15 | "foo.hi" gives `null`, because `foo` is 0 |
| KeyPath.LegacyGetValue | utils/index.js:9-13 | no contract of its own: the fold of `prev ? prev[curr] : null` over `Split(path)`, with `undefined` allowed; see LegacyGetValueComposes, LegacyGetValueAfterFalsy, LegacyGetValueOneKey and GetValueRefinesLegacy |
| KeyPath.LegacyGetValueComposes | utils/index.js:10-12 | the same fold-composition law holds for the older version, with `undefined` allowed at the root |
| KeyPath.LegacyGetValueAfterFalsy | utils/index.js:10-12 | once an intermediate value is falsy or `undefined`, the older version yields `null` |
| KeyPath.LegacyGetValueOneKey | utils/index.js:11 | the older version indexes a truthy value directly: a present value comes back unchanged, falsy ones included, and a key the object does not hold gives `undefined` |
| KeyPath.LegacyGetValueDocExample | utils/index.js:5-8 | the documented example `{foo: {bar: 10}}`, "foo.bar" gives 10 |
| KeyPath.LegacyMissingKeyIsUndefined | utils/index.js:11 | on the same sample, the older version answers `undefined` for "hi" where the current one answers `null` |
| KeyPath.GetValueRefinesLegacy | utils/index.js:9-13 | the two generations agree on every root and path once the older one's `undefined` is read as `null` |
| Api.ThrowError | source/lib/api.js:195-202 | the thrown error carries `{status, reason}` exactly when the failure has a response with at least one error reason, and then the status and the first reason; otherwise a TypeError escapes |
| Api.ValidateApiKey | source/lib/api.js:31-63 | an empty key gives the empty-key message whatever the probe says; an accepted probe gives `true`; no response gives the connection message; status 400 gives the invalid-key message; any other status gives the not-working message |
| Api.PlaylistMetadata | source/lib/api.js:70-102 | the result is `{title, numOfVideos}` from the first playlist's title and the total item count exactly when both requests succeed and a playlist came back; a failed request is shaped by `throwError` |
| Api.IsPrivate | source/lib/api.js:145 | no contract of its own: `item.status.privacyStatus` is the string "private"; see ApiProperties.PrivacyStatusIsLookedUp, KeptItems and HiddenFieldsOfPrivateOrDeleted |
| Api.IsDeleted | source/lib/api.js:146 | no contract of its own: `item.snippet.title` is the string "Deleted video"; see ApiProperties.PrivacyField, KeptItems and HiddenFieldsOfPrivateOrDeleted |
| Api.FieldValue | source/lib/api.js:157-175 | no contract of its own: the looked-up value of the key's path with the per-key overrides; see ApiProperties.UrlAlwaysBuilt, HiddenFieldsOfPrivateOrDeleted, VisibleFieldsOfOtherItems, PrivacyField and PlainFields |
| Api.NumOfPages | source/lib/api.js:118 | no contract of its own: `(n + MaxResults - 1) / MaxResults` with `MaxResults` = 50; see ApiProperties.NumOfPagesIsCeiling and NoVideosNoRequests |
| Api.EntryFieldsShape | source/lib/api.js:154-178 | the entry has one field per requested key, in the requested order, each holding that key's overridden value |
| Api.EntryShape | source/lib/api.js:154-178 | an entry is an object whose key list is exactly `exportItems` and whose i-th value is the i-th key's value |
| Api.ExportedValue | source/lib/api.js:157-175 | the value computed by the `switch` over `exportItem` equals the specified field value |
| Api.BuildEntry | source/lib/api.js:154-178 | the field-by-field loop over `exportItems` builds exactly the specified entry |
| Api.ProjectPage | source/lib/api.js:144-182 | the `data.items.forEach` callback produces exactly the page's projection, skipping private and deleted items when the setting is on |
| Api.GetPlaylistData | source/lib/api.js:111-189 | the page loop returns exactly what the recursive fetch specification returns (entries, or the first error shaped by `throwError`) and makes exactly its requests, in order |
| ApiProperties.NumOfPagesIsCeiling | source/lib/api.js:118 | the number of pages is `ceil(n / 50)`: the fewest pages of 50 that hold n items, and 0 only for an empty playlist |
| ApiProperties.NoVideosNoRequests | source/lib/api.js:118-131 | with 0 videos no request is made and the result is `[]` |
| ApiProperties.RequestChain | source/lib/api.js:119-142 | the first request carries no token; each later one carries the previous response's `nextPageToken` (or none); all name the same playlist; there are at most `ceil(n / 50)` |
| ApiProperties.FetchSucceedsExactly | source/lib/api.js:131-142 | the fetch succeeds exactly when all `ceil(n / 50)` requests are made and every one is answered with a page: the loop never stops early |
| ApiProperties.FetchFailsOnLastRequest | source/lib/api.js:186-188 | on failure the last request made is the failed one; its error, shaped by `throwError`, is all that comes back, with no partial data |
| ApiProperties.FetchProjectsRawItems | source/lib/api.js:131-185 | a successful fetch is the projection of all raw items, pages in request order and items in page order |
| ApiProperties.ProjectItemsAppend | source/lib/api.js:144-182 | projection distributes over concatenation of item runs, so entries are never reordered |
| ApiProperties.ProjectWithoutSkip | source/lib/api.js:144-182 | without the skip setting every raw item gives exactly one entry, at the same position |
| ApiProperties.ProjectedAt | source/lib/api.js:144-182 | without the skip setting, entry i is the entry of raw item i |
| ApiProperties.KeptItems | source/lib/api.js:149-152 | the items the skip setting keeps are exactly the raw items that are neither private nor deleted |
| ApiProperties.ProjectWithSkip | source/lib/api.js:145-153 | with the skip setting, the result is the projection of the kept items only |
| ApiProperties.EntryKeys | source/lib/api.js:16-25 | an entry answers every requested key with that key's value and has no other key |
| ApiProperties.UrlAlwaysBuilt | source/lib/api.js:167-169 | `url` is always the short video URL built from the video id, for private and deleted items too |
| ApiProperties.HiddenFieldsOfPrivateOrDeleted | source/lib/api.js:159-166 | for private or deleted items `description` and `uploaderUrl` are `null`, whatever the raw values |
| ApiProperties.VisibleFieldsOfOtherItems | source/lib/api.js:159-166 | for other items the description is kept and `uploaderUrl` is the channel URL of the channel id |
| ApiProperties.PrivacyField | source/lib/api.js:170-175 | `videoPrivacy` is "deleted" for a deleted item and otherwise the raw status, so a private item stays "private" |
| ApiProperties.PrivacyStatusIsLookedUp | source/lib/api.js:23 | an item is classified as private exactly when `getValue` of the `videoPrivacy` path gives "private" |
| ApiProperties.PlainFields | source/lib/api.js:16-25 | position, title, uploader and publish time are never overridden |
| ApiProperties.MissingTokenRepeatsFirstPage | source/lib/api.js:131-142 | when the first page has no `nextPageToken`, every later request again carries none, so the first page is fetched and exported once per remaining page |
| FileExport.StripIllegal | utils/saveFile.js:61 | no contract of its own: drops each of `< > : " / \ \| ? *`, one character at a time; see StripIllegalAppend, StripIllegalSpec and StripIllegalKeepsLegal |
| FileExport.SpacesToUnderscores | utils/saveFile.js:62 | each space becomes exactly one `_` and every other character stays in place |
| FileExport.StripIllegalAppend | utils/saveFile.js:61 | removing illegal characters works character by character, keeping the rest in order |
| FileExport.StripIllegalSpec | utils/saveFile.js:61 | the stripped name has none of `< > : " / \ \| ? *` and is shorter by exactly the number of them |
| FileExport.StripIllegalKeepsLegal | utils/saveFile.js:61 | a name without illegal characters is left unchanged |
| FileExport.SanitizedNameIsClean | utils/saveFile.js:61-62 | the sanitised name has neither illegal characters nor spaces |
| FileExport.SanitizedNameLength | utils/saveFile.js:61-62 | the sanitised name is as long as the input less its illegal characters |
| FileExport.SanitizeIdempotent | utils/saveFile.js:61-62 | sanitising twice changes nothing more |
| FileExport.SanitizeColonAndSpace | utils/saveFile.js:57-58 | "Hello: World" becomes "Hello_World" |
| FileExport.SanitizeSpace | tests/utils/saveFile.test.js:31-33 | "Lorem Ipsum" becomes "Lorem_Ipsum" |
| FileExport.SanitizeEveryIllegalChar | tests/utils/saveFile.test.js:35-38 | `<"a">:b/\c\|d?e*` becomes "abcde" |
| FileExport.ExportFileName | utils/saveFile.js:60-70 | no contract of its own: the sanitised name with the date prefix when `addDate` holds, then the extension; see ExportFileNameLayout and ExportFileNameExample |
| FileExport.DateText | utils/saveFile.js:65 | `substring(0, 10)` of an ISO timestamp is its 10-character prefix |
| FileExport.ExportFileNameLayout | utils/saveFile.js:60-70 | with the date the name is `date10 + "-" + name + "." + ext`; without it, `name + "." + ext` |
| FileExport.ExportFileNameExample | utils/saveFile.js:55-59 | "Hello: World", "json" on 2021-09-16 gives "2021-09-16-Hello_World.json" |
| FileExport.FormatFor | utils/saveFile.js:16-23 | "csv" selects the CSV serialiser and every other extension, "json" included, selects JSON |
| FileExport.Join | utils/saveFile.js:38 | the target path starts with the folder, and an empty folder gives the bare file name |
| FileExport.FileSystem.ExistsSync | utils/saveFile.js:26 | a path exists when it is a directory or a file |
| FileExport.FileSystem.MkdirSync | utils/saveFile.js:28 | the directory is added, or the call fails and nothing changes |
| FileExport.FileSystem.WriteFileSync | utils/saveFile.js:41 | the payload is stored under the path, or the call fails and nothing changes |
| FileExport.SaveOutcome | utils/saveFile.js:12-49 | no contract of its own: the specification of `saveFile`'s disk effect and messages; see FolderCreatedOnlyIfMissing, FolderFailureWritesNothing, WriteGoesToTarget and OnlyTargetChanges, and SaveFile, which is proved equal to it |
| FileExport.SaveFile | utils/saveFile.js:12-49 | the imperative sequence leaves exactly the disk and message log of the specification `SaveOutcome` |
| FileExport.FolderCreatedOnlyIfMissing | utils/saveFile.js:26-35 | creating the folder is attempted only when it is missing; an existing folder is left as it is |
| FileExport.FolderFailureWritesNothing | utils/saveFile.js:30-34 | when the folder cannot be created nothing is written and only the folder error is reported |
| FileExport.WriteGoesToTarget | utils/saveFile.js:38-48 | the payload (format by extension, the data) goes to the folder joined with the dated export name; success is reported exactly when the write succeeds |
| FileExport.OnlyTargetChanges | utils/saveFile.js:38-46 | no file other than the target changes |
| Configuration.DefaultsConform | lib/Config.js:3-27 | the schema defaults satisfy the schema |
| Configuration.TrueKeys | lib/Config.js:55-59 | no contract of its own: the keys with a truthy value, in key order; see TrueKeysAppend, TrueKeysMembers, TrueKeysAreTheTruthyOnes, TrueKeysSubset, TrueKeysDistinct and Config.GetExportItemsDefaults, which is proved equal to it |
| Configuration.TrueKeysAppend | lib/Config.js:55-59 | the selection keeps key order: keys of a prefix come before those of the rest |
| Configuration.TrueKeysMembers | lib/Config.js:55-59 | a key is selected exactly when some field with that key holds a truthy value |
| Configuration.TrueKeysAreTheTruthyOnes | lib/Config.js:55-59 | with distinct keys, a key is selected exactly when `exportItems[key]` is truthy |
| Configuration.TrueKeysSubset | lib/Config.js:55-59 | every selected key is one of the `exportItems` keys |
| Configuration.TrueKeysDistinct | lib/Config.js:51-62 | no key is selected twice |
| Configuration.DefaultsSelectFourItems | lib/Config.js:18-25 | the schema defaults select `["position", "title", "uploader", "url"]` |
| Configuration.Config.constructor | lib/Config.js:30-32 | the store is the persisted file with every missing setting filled from the schema defaults |
| Configuration.Config.Get | lib/Config.js:35 | `conf.get(key)`: the stored value, or `undefined` for an absent key |
| Configuration.Config.ApiKey | lib/Config.js:34-37 | the getter returns the stored key, a string, since `Conf` fills in the schema default "" whenever the key is missing |
| Configuration.Config.SetApiKey | lib/Config.js:39-41 | afterwards the getter returns the new key, the export items are unchanged and nothing else changes |
| Configuration.Config.RemoveApiKey | lib/Config.js:43-45 | the API key reads as its schema default "" afterwards; every other setting reads the same |
| Configuration.Config.ResetAll | lib/Config.js:74-76 | every setting is back at its schema default: the key is "" and the export items are the default map |
| Configuration.Config.GetExportItemsDefaults | lib/Config.js:51-62 | the loop returns the keys of `exportItems` with a truthy value, in stored order, without duplicates |
| IdCommand.HandleApiError | source/commands/id.js:95-117 | "quotaExceeded", "playlistNotFound" and any other reason give the quota, not-found and generic message with the status; an error that is not the JSON of `{status, reason}` makes the parse throw |
| IdCommand.ApiMessagesDiffer | source/commands/id.js:98-116 | the three reasons give three distinct message kinds |
| IdCommand.ReportApiError | source/commands/id.js:41-45 | a `catch` block resolves to false after printing the message, and rejects when the error has no `{status, reason}` |
| IdCommand.ChooseExport | source/commands/id.js:59-79 | with `--default` the export items are the config's truthy keys and the file options the stored ones; otherwise all three are the prompt's answers |
| IdCommand.ExportPlaylist | source/commands/id.js:65-88 | fetches with the chosen items and the metadata's video count, reports a failure without saving, and otherwise saves once and resolves to true |
| IdCommand.Decide | source/commands/id.js:16-89 | no contract of its own: the step at which the early-return sequence stops; see WatchLaterRefusedFirst, MissingKeyRefused, MetadataFailureStops, EmptyPlaylistStops, FetchThenSave and IdActionHandler, which is proved equal to it |
| IdCommand.ContinueWithMetadata | source/commands/id.js:38-88 | once the metadata request has settled: a failure is reported and never resolves to true, an empty playlist stops with its notice, otherwise the export is chosen and run; outcome, messages, requests and disk are those of the step `MetadataStep` names |
| IdCommand.IdActionHandler | source/commands/id.js:16-89 | the handler's outcome, messages, page requests and effect on the disk are those of the step `Decide` names; the disk changes only through `saveFile` on the success path |
| IdCommand.TrueOnlyWhenExported | source/commands/id.js:86-88 | the handler resolves to true exactly when it reaches `saveFile`, and adds no notice of its own then, apart from the title, count and empty lines, which are not modelled; `saveFile` may still report a folder or write failure |
| IdCommand.TrueEvenWhenSaveFails | source/commands/id.js:86-88 | when `saveFile` cannot create the folder or write the file, nothing is written and no success message is printed, yet the handler resolves to true |
| IdCommand.WatchLaterRefusedFirst | source/commands/id.js:20-25 | "WL" resolves to false before the key, the API or the prompt are consulted |
| IdCommand.MissingKeyRefused | source/commands/id.js:28-32 | an absent or empty API key resolves to false with the key warning and no request |
| IdCommand.MetadataFailureStops | source/commands/id.js:38-45 | a metadata failure is reported once and resolves to false without fetching data |
| IdCommand.EmptyPlaylistStops | source/commands/id.js:53-56 | an empty playlist resolves to false without fetching data or saving |
| IdCommand.FetchThenSave | source/commands/id.js:58-88 | past the checks, the data is fetched for the chosen items and the metadata's count; a failure never resolves to true and nothing is saved; a success is saved with the chosen options and the playlist title, and resolves to true |

## Left out

- The network: axios requests, the API key, `part` and `maxResults` query parameters, the progress bar and the spinners. A page request is a value answered by the `Server` function, so the server answers the same request the same way throughout one run (ApiProperties.MissingTokenRepeatsFirstPage relies on this), and the two metadata requests are given as their outcomes.
- Console output and `chalk` colouring. Messages are kinds (`Notice`, `SaveMessage`, `ApiMessage`, `KeyVerdict`), not text. The playlist title and video count lines and the empty line that `idActionHandler` prints on its way to `saveFile` (source/commands/id.js:47-50, 86) are not modelled.
- `JSON.stringify` and json2csv's `Parser`. A written file holds the format and the data, not the serialised text.
- The clock. `new Date().toISOString()` is the `isoNow` parameter.
- `validateFolderPath` and `is-absolute` (utils/saveFile.js:76-82). They wrap a foreign library.
- The prompts of source/lib/prompts.js, the commander wiring and the `config` and `key` commands. The prompt's answers are the `Answers` parameter.
- The non-empty export items rule of the prompt is not required. The `--default` path passes the config's truthy keys, which may be none.
- lib/api.js, an older duplicate of `validateApiKey`.
- source/lib/Config.js is not part of this model. `idActionHandler` reads `fileExt` and `folderPath` from it (source/commands/id.js:60-61), and `getPlaylistData` reads `skipPrivateOrDeleted` from it (source/lib/api.js:149). The model passes all three as `StoredOptions`: the handler takes the two file options from it, and the skip setting is hoisted out of `getPlaylistData` into the `skip` parameter of `Api.GetPlaylistData`, which the handler fills from `StoredOptions`. The API key and the export item defaults are read from the modelled `Config` of lib/Config.js.
- IdCommand.IdActionHandler: the handler calls the `saveFile` of source/utils/saveFile.js, which is not part of this model; it is modelled by FileExport.SaveFile of utils/saveFile.js. So what IdCommand.IdActionHandler, IdCommand.ContinueWithMetadata, IdCommand.ExportPlaylist, IdCommand.TrueEvenWhenSaveFails and IdCommand.FetchThenSave state about the file name written and the messages printed holds for that version; the two versions may differ in the space-replacement character and in the order of the two clean-up steps.
- The `path` getter of `Config` (lib/Config.js:67-69). It reports where the library stores its file.
- Schema validation by `Conf` beyond `Conforms`: strings for the key, an object with distinct keys for the export items.
- JsonValues.Property sees own fields only. Members that objects inherit from `Object.prototype` (`toString`, `constructor`, `__proto__`, …) are not modelled, so JsonValues.LookupSpec, KeyPath.GetValueOneKey, KeyPath.GetValueMissingKey and KeyPath.LegacyGetValueOneKey hold for keys that are not such names. No path in `exportItemsMap` uses one.
- Numbers are integers. NaN, floats and their text form are not modelled.
- Property access on truthy values that are not objects (a string's `length`, an array index) is modelled as `undefined`.
- Objects with repeated keys. A lookup answers with the first field.
- `path.join` normalisation (`..`, repeated separators). `Join` only inserts a separator.
- Raw items without a `status` or `snippet` object. In the source, the TypeError these raise is caught and re-thrown by `throwError` as an unstructured error. The model's `Nested` returns `undefined` instead.
- Why `mkdirSync` or `writeFileSync` fail is abstracted as sets of failing paths.
- FileExport.SaveFile: serialisation is taken to be total. json2csv's `Parser().parse` throws on an empty array (utils/saveFile.js:18), before the folder check, so a CSV export with no entries (for instance with the skip setting on and every item private or deleted) writes nothing and, since `saveFile` is called outside the `try` (source/commands/id.js:87), makes `idActionHandler` reject. The model instead writes an empty CSV payload, and IdCommand.IdActionHandler resolves to `true`.
- FileExport.FileSystem.MkdirSync: parent directories created by `recursive: true` are not tracked; the directory set gains only the folder itself. FileExport.SaveOutcome and FileExport.FolderCreatedOnlyIfMissing state the new directory set with the same simplification.
- Integer-like object keys ("0", "42"), which JavaScript enumerates first in ascending order, are not modelled: objects keep plain insertion order. No key the source builds or reads is integer-like, so only the `for…in` of `getExportItemsDefaults` could notice.
- Api.GetPlaylistData: the export items are required to be known keys without repeats, as every caller builds them. An unknown key in the source would store `getValue(item, undefined)`, which throws.

## Findings

| source | as written | input that shows it | evidently intended | confidence | as-written member | corrected member |
|---|---|---|---|---|---|---|
| utils/index.js:11 | `prev ? prev[curr] : null` returns `undefined` for a key missing from a truthy value | `getValue({foo: 0, bar: {baz: [1, 2]}}, "hi")` gives `undefined`, while tests/utils/index.test.js:12 expects `null` for this file's `getValue` | a missing key yields `null`, as the later `prev[curr] ?? null` of source/utils/index.js:13 does | not executed; high, the test asserts `toBeNull()` | KeyPath.LegacyMissingKeyIsUndefined | KeyPath.GetValueMissingKey |
