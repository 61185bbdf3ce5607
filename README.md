# Sheet-music library: a verified model of its core

This project models the core of a sheet-music library app in Dafny. The app
stores uploaded score files (PDFs and images) as "sheets" and groups them in
"playlists". The model covers five parts of it:

- **Persistence service** (`database.dfy`, module `Database`). Two
  newest-first collections live in memory. After every change both are
  written in full to a key-value storage. Loading happens once, with `init`.
- **Application store** (`app_store.dfy`, module `AppStore`). It keeps cached
  copies of the two collections, the current sheet and playlist, a loading
  flag and the last error. Each action calls the service and then rebuilds
  its own array by prepending, mapping or filtering.
- **Upload form** (`file_upload.dfy`, module `FileUpload`). It validates each
  picked file and keeps the accepted ones with aligned previews. An upload
  adds one sheet per file, named after the file without its extension.
- **Sheet list** (`sheet_list.dfy`, module `SheetList`). It holds the search
  filter, the thumbnail and badge of a sheet, the empty and no-results
  alerts, and the delete confirmation.
- **Viewer** (`sheet_viewer.dfy`, module `SheetViewer`). It holds the zoom and
  page updaters, the keyboard dispatch, and when the page controls are shown.

Shared modules support them:

- `records.dfy` (module `Records`) models a JavaScript object as a map from
  field name to value. It also holds the lookups by `_id`, the spread-merge
  of an update, and the filter and map the collections go through.
- `seqs.dfy` (module `Seqs`) defines the order-preserving filter once, with
  its subsequence and multiset characterisation.
- `strings.dfy` (module `Strings`) defines decimal rendering, which builds
  ids such as `sheet_1700000000000`.
- `wrappers.dfy` holds `Option` and `Result`.

Stateful parts are classes whose methods change their fields. Each method is
tied to a specification function or to its old state, and that function's
properties are lemmas:

- the service is `Database.SimpleDatabase`;
- the store is `AppStore.Store`;
- the upload form is `FileUpload.UploadForm`;
- the delete dialog is `SheetList.DeleteDialog`;
- the viewer is `SheetViewer.Viewer`.

The two loops of the source are methods with loop invariants:

- the validation loop (`src/components/FileUpload/FileUpload.jsx:77`) is
  `FileUpload.SelectFiles`;
- the upload loop (`src/components/FileUpload/FileUpload.jsx:155`) is
  `FileUpload.UploadAll`.

The key handler (`src/components/SheetViewer/SheetViewer.jsx:118-131`) is a
chain of `if`/`else` branches, not a loop. It is the function
`SheetViewer.KeyPress`, and `SheetViewer.Viewer.HandleKeyPress` applies it to
the viewer's state. `Run` and `RunStaysBounded` cover a sequence of key
presses, one handler call after another.

Clock readings are parameters. A `Database.Stamp` carries the millisecond
count used in the id and the two ISO timestamps. File contents read as data
URLs are a function parameter `dataUrl`. The storage is an abstract map from
key to `Stored`: either the serialised collection or text that does not parse.
A JSON round trip is taken to give the collection back unchanged.

The zoom factor starts at 1.0 and moves in steps of 0.25 between 0.5 and 3.0.
These values are exact in binary floating point, so the model keeps the zoom
as a whole number of quarters between 2 and 12. `SheetViewer.ZoomMatchesScale`
proves that these quarters give the same factors as the source's `Math.min`
and `Math.max` on reals.

### Loading and saving failures

- **A corrupt stored collection during loading.** `this.sheets` is assigned
  before the playlists are parsed (`src/services/database.js:16-17`). A
  corrupt playlists entry therefore keeps the sheets just loaded, keeps the
  playlists as they were, returns `false` and leaves `initialized` false, so
  the next `init` loads again. A corrupt sheets entry keeps both collections
  as they were. `Database.InitResult` states both cases.
- **A failed load is not reported.** The store's `initialize` ignores
  `init`'s `false` result (`src/store/useAppStore.js:17`). A failed load is
  never recorded as an error. `AppStore.Store.Initialize` has no error case.
- **Write failures are only logged.** `saveToStorage` catches a failing
  write and logs it (`src/services/database.js:33-35`), so no mutation is
  ever rejected. The model treats writes as always succeeding (see
  "Left out").

### Consequences the proofs make visible

- The store's cached array follows the service's only while ids are unique.
  `updateSheet` replaces *every* cached element with the id
  (`src/store/useAppStore.js:42`). The service replaces only the *first*
  (`src/services/database.js:61-64`).
  - `Records.ReplaceAllIsReplaceFirst` proves the two agree when ids are
    unique.
  - `Records.ReplaceAllDiffersOnDuplicateIds` gives two records with one id
    on which they differ.
- Ids are built from `Date.now()`. `Database.SheetIdsCollideOnSameMillisecond`
  proves two ids are equal exactly when the two insertions read the same
  millisecond. This is one way duplicate ids can arise. Another is an update
  whose fields include `_id`: the spread at `src/services/database.js:64-68`
  copies it over the record's own id.

## Model

| member | source | states |
|---|---|---|
| Seqs.Filter | src/services/database.js:76 | `Array.prototype.filter` keeps exactly the accepted elements, in order (a subsequence), each as often as it occurs |
| Records.FindIndex | src/services/database.js:61 | `findIndex` gives -1 exactly when no record has the id, otherwise the first index whose record has it |
| Records.Find | src/services/database.js:75 | `find` gives nothing exactly when no record has the id, otherwise the record at the first matching index |
| Records.WithoutId | src/services/database.js:76 | filtering out an id leaves an order-preserving subsequence with no record of that id, holding every other record as often as before |
| Records.WithoutAbsentId | src/services/database.js:74-79 | deleting an id that no record has leaves the collection equal to before |
| Records.ReplaceAll | src/store/useAppStore.js:42 | the store's `map` keeps the length, puts the updated record at every index whose record has the id, and leaves every other index alone |
| Records.ReplaceAllIsReplaceFirst | src/store/useAppStore.js:42 | with unique ids, replacing every match is the service's replacement of the first match (`src/services/database.js:61-64`) |
| Records.ReplaceAllDiffersOnDuplicateIds | src/store/useAppStore.js:42 | with two records of one id, replacing every match and replacing the first match give different arrays |
| Records.Merge | src/services/database.js:64-68 | the spread merge has the keys of both objects plus `updatedAt`; update fields overwrite, other fields are kept, and `updatedAt` is always the fresh clock value |
| Database.InitResult | src/services/database.js:9-27 | `init` is idempotent once initialized; absent keys keep the collections; saved collections are loaded; a parse failure returns false with `initialized` false and keeps the collection it was parsing, while sheets already loaded stay loaded |
| Database.InitRestoresSaved | src/services/database.js:13-19 | loading a storage that holds two saved collections restores exactly those collections and succeeds |
| Database.SheetIdsCollideOnSameMillisecond | src/services/database.js:45 | two sheet ids are equal exactly when they were made in the same millisecond |
| Database.PlaylistIdsCollideOnSameMillisecond | src/services/database.js:92 | two playlist ids are equal exactly when they were made in the same millisecond |
| Database.NewSheetFields | src/services/database.js:44-53 | a new sheet has the clock id, type "sheet", the caller's name, type and data, no annotations, both timestamps, and no other field |
| Database.NewSheet | src/services/database.js:44-53 | builds the new sheet's object literal; it has no contract of its own, and `Database.NewSheetFields` states its fields |
| Database.NewPlaylistFields | src/services/database.js:90-98 | a new playlist has the clock id, type "playlist", the given name, the given sheet ids or `[]` when omitted, both timestamps, and no other field |
| Database.NewPlaylist | src/services/database.js:91-98 | builds the new playlist's object literal; it has no contract of its own, and `Database.NewPlaylistFields` states its fields |
| Database.SaveTwice | src/services/database.js:29-36 | a later save overwrites both keys, so the storage after two saves is the original storage with only the later collections written |
| Database.Listed | src/services/database.js:135-137 | the sheets whose id is listed, in sheet-collection order, each kept as often as it occurs; ids with no sheet add nothing |
| Database.SimpleDatabase.constructor | src/services/database.js:3-7 | a new service holds two empty collections and is not initialized |
| Database.SimpleDatabase.Init | src/services/database.js:9-27 | the result and the new collections and flag are those `InitResult` gives for the old state and the storage |
| Database.SimpleDatabase.SaveToStorage | src/services/database.js:29-36 | both keys hold the current collections and no other key changes |
| Database.SimpleDatabase.GetAllSheets | src/services/database.js:39-41 | the result is a copy equal to the sheet collection |
| Database.SimpleDatabase.AddSheet | src/services/database.js:43-58 | the new sheet goes first, the old sheets follow in their order, and the storage holds the new state |
| Database.SimpleDatabase.UpdateSheet | src/services/database.js:60-72 | an unknown id fails with "Sheet not found" and changes nothing; otherwise only the first matching index becomes the merge, the merged record is returned, and the storage holds the new state |
| Database.SimpleDatabase.DeleteSheet | src/services/database.js:74-79 | every sheet with the id is removed, the rest keep their order, and the storage holds the new state; there is no failure |
| Database.SimpleDatabase.GetSheet | src/services/database.js:81-83 | nothing for an unknown id, otherwise the first sheet with the id |
| Database.SimpleDatabase.GetAllPlaylists | src/services/database.js:86-88 | the result is a copy equal to the playlist collection |
| Database.SimpleDatabase.AddPlaylist | src/services/database.js:90-103 | the new playlist goes first, the old ones follow in their order, and the storage holds the new state |
| Database.SimpleDatabase.UpdatePlaylist | src/services/database.js:105-117 | an unknown id fails with "Playlist not found" and changes nothing; otherwise only the first matching index becomes the merge, and the storage holds the new state |
| Database.SimpleDatabase.DeletePlaylist | src/services/database.js:119-124 | every playlist with the id is removed, the rest keep their order, and the storage holds the new state |
| Database.SimpleDatabase.GetPlaylist | src/services/database.js:126-128 | nothing for an unknown id, otherwise the first playlist with the id |
| Database.SimpleDatabase.GetPlaylistSheets | src/services/database.js:131-138 | an unknown playlist gives no sheets; otherwise a subsequence of the sheets holding exactly those whose id the playlist lists, each as often as it occurs |
| Database.SimpleDatabase.ClearAll | src/services/database.js:141-147 | both collections become empty and both keys are removed from the storage, nothing else in it changing |
| Database.Reopen | src/services/database.js:9-19 | a new service over the storage a persisted service left, once loaded, holds the same two collections and is initialized |
| AppStore.Store.constructor | src/store/useAppStore.js:4-11 | the store starts with empty arrays, no selection, not loading and no error |
| AppStore.Store.Initialize | src/store/useAppStore.js:14-24 | the service is loaded as `InitResult` says, the store's arrays equal the service's, and loading is off |
| AppStore.Store.AddSheet | src/store/useAppStore.js:27-36 | both the service's and the store's sheet arrays become the new sheet followed by the old ones; a mirrored store stays mirrored |
| AppStore.Store.UpdateSheet | src/store/useAppStore.js:38-49 | fails exactly for an unknown id, recording "Sheet not found" and changing no array; on success replaces every cached match with the service's record; with unique ids a mirrored store stays mirrored |
| AppStore.Store.DeleteSheet | src/store/useAppStore.js:51-59 | both arrays lose every sheet with the id and keep the order of the rest; a mirrored store stays mirrored |
| AppStore.Store.SetCurrentSheet | src/store/useAppStore.js:61 | only the current sheet changes |
| AppStore.Store.AddPlaylist | src/store/useAppStore.js:64-73 | both playlist arrays become the new playlist followed by the old ones; a mirrored store stays mirrored |
| AppStore.Store.UpdatePlaylist | src/store/useAppStore.js:75-86 | fails exactly for an unknown id, recording "Playlist not found" and changing no array; on success replaces every cached match; with unique ids a mirrored store stays mirrored |
| AppStore.Store.DeletePlaylist | src/store/useAppStore.js:88-96 | both arrays lose every playlist with the id and keep the order of the rest; a mirrored store stays mirrored |
| AppStore.Store.SetCurrentPlaylist | src/store/useAppStore.js:98 | only the current playlist changes |
| AppStore.Store.ClearError | src/store/useAppStore.js:100 | only the error changes, to none |
| FileUpload.ValidateFile | src/components/FileUpload/FileUpload.jsx:40-48 | no message exactly for an allowed type of at most 10 MiB; a disallowed type gets the type message even when oversize; an oversize allowed file gets the size message |
| FileUpload.SizeLimitIsInclusive | src/components/FileUpload/FileUpload.jsx:24 | a file of exactly 10485760 bytes passes and one of 10485761 bytes gets the size message |
| FileUpload.ErrorsComeFromFiles | src/components/FileUpload/FileUpload.jsx:77-81 | every collected message is the validation message of some input file |
| FileUpload.SelectionPartitions | src/components/FileUpload/FileUpload.jsx:77-92 | the messages and the accepted files together number exactly the input files |
| FileUpload.PreviewsAligned | src/components/FileUpload/FileUpload.jsx:82-90 | the previews match the accepted files one to one by name, with an image preview exactly for an "image/" type |
| FileUpload.SelectFiles | src/components/FileUpload/FileUpload.jsx:72-92 | the loop's accepted files are the valid inputs in order, its messages are those of the rejected inputs in order, and its previews are those of the accepted files |
| FileUpload.RemoveAt | src/components/FileUpload/FileUpload.jsx:136-137 | filtering out index i drops that one element, keeps the ones before and shifts the ones after; any other index changes nothing |
| FileUpload.Join | src/components/FileUpload/FileUpload.jsx:95 | `join` starts with the first string and its length is the strings' total length plus one separator between each pair |
| FileUpload.JoinPart | src/components/FileUpload/FileUpload.jsx:95 | in the joined text each string sits right after the strings before it and one separator per earlier string, and a separator follows every string but the last |
| FileUpload.ExtensionStart | src/components/FileUpload/FileUpload.jsx:159 | the scan finds where the extension pattern matches, or reports that it matches nowhere |
| FileUpload.StripExtension | src/components/FileUpload/FileUpload.jsx:159 | the display name is a prefix of the file name, and when it is shorter the extension pattern matches exactly where it ends |
| FileUpload.StripExtensionRemovesOnlyTheExtension | src/components/FileUpload/FileUpload.jsx:159 | the name changes exactly when the pattern matches, and then loses exactly the matched final `.suffix` |
| FileUpload.StripExtensionExamples | src/components/FileUpload/FileUpload.jsx:159 | "a.b.pdf" becomes "a.b"; "noext", "file." and "v1.2/score" are unchanged |
| FileUpload.UploadData | src/components/FileUpload/FileUpload.jsx:158-162 | the data passed to `addSheet` is named after the file without its extension, and carries the file's type and data URL |
| FileUpload.UploadedSheets | src/components/FileUpload/FileUpload.jsx:155-163 | an upload adds exactly one sheet per selected file |
| FileUpload.UploadedSheetsContents | src/components/FileUpload/FileUpload.jsx:155-163 | the sheet of the k-th selected file is the k-th from the end, made from that file's data and the k-th clock reading |
| FileUpload.UploadedSheetsStep | src/components/FileUpload/FileUpload.jsx:155-163 | uploading one more file puts its sheet in front of those already added |
| FileUpload.UploadForm.constructor | src/components/FileUpload/FileUpload.jsx:27-31 | the form starts with nothing selected, no previews, no messages and no upload running |
| FileUpload.UploadForm.HandleFileSelect | src/components/FileUpload/FileUpload.jsx:68-103 | the selection becomes the valid files in order with aligned previews; the error is the messages joined by newlines, or none; success is cleared |
| FileUpload.UploadForm.HandleRemoveFile | src/components/FileUpload/FileUpload.jsx:135-141 | the same index is removed from the files and the previews, the error is cleared, and an aligned selection stays aligned |
| FileUpload.UploadForm.HandleUpload | src/components/FileUpload/FileUpload.jsx:144-179 | an empty selection only sets "Please select at least one file"; otherwise one sheet per file is added newest first to store and service, the storage is the old storage with both collections written and every other key kept, the count is reported, the selection is cleared, and a mirrored store stays mirrored |
| FileUpload.UploadAll | src/components/FileUpload/FileUpload.jsx:155-163 | the loop adds the files' sheets in selection order, leaving the last one first, to both store and service; the storage is the old storage with both collections written and every other key kept |
| SheetList.Lower | src/components/SheetList/SheetList.jsx:50-52 | lower-casing keeps the length and maps each character |
| SheetList.Trim | src/components/SheetList/SheetList.jsx:48 | `trim` gives a slice of the string with only whitespace cut off on either side, and what it leaves neither starts nor ends with whitespace |
| SheetList.TrimEmptyIffAllWhitespace | src/components/SheetList/SheetList.jsx:48 | trimming leaves nothing exactly when every character is whitespace |
| SheetList.IsBlank | src/components/SheetList/SheetList.jsx:48 | `!query.trim()` holds exactly when the query is empty or all whitespace |
| SheetList.Contains | src/components/SheetList/SheetList.jsx:52 | `includes` finds the empty needle in every string and never finds a needle longer than the text |
| SheetList.ContainsIffOccurs | src/components/SheetList/SheetList.jsx:52 | `includes` holds exactly when the needle occurs at some position |
| SheetList.FilteredSheets | src/components/SheetList/SheetList.jsx:47-54 | a blank query gives the sheets unchanged; otherwise an order-preserving subsequence holding exactly the sheets whose lower-cased name contains the lower-cased query, each as often as it occurs |
| SheetList.QueryIsNotTrimmed | src/components/SheetList/SheetList.jsx:50-52 | the query is matched untrimmed: one holding a space (leading, trailing or inside) never finds a name without spaces |
| SheetList.CaseIsIgnored | src/components/SheetList/SheetList.jsx:50-52 | a query finds exactly the sheets its lower-case form finds |
| SheetList.Thumbnail | src/components/SheetList/SheetList.jsx:65-71 | the sheet's data exactly when its type starts with "image/", otherwise nothing |
| SheetList.Badge | src/components/SheetList/SheetList.jsx:131 | "PDF" exactly for the type "application/pdf", "Image" for any other |
| SheetList.AlertsExclusive | src/components/SheetList/SheetList.jsx:281-292 | the empty-state and no-results alerts never both show; no results shows exactly when there are sheets, the query is not blank, and no sheet matches it |
| SheetList.DeleteDialog.constructor | src/components/SheetList/SheetList.jsx:43-44 | the dialog starts closed with no sheet pending |
| SheetList.DeleteDialog.HandleDeleteClick | src/components/SheetList/SheetList.jsx:83-86 | the clicked sheet is pending and the dialog is open |
| SheetList.DeleteDialog.HandleDeleteConfirm | src/components/SheetList/SheetList.jsx:88-94 | with no sheet pending nothing changes; otherwise the pending sheet's id is deleted through the store, the storage is the old storage with both collections written and every other key kept, and the dialog closes |
| SheetList.DeleteDialog.HandleDeleteCancel | src/components/SheetList/SheetList.jsx:96-99 | the dialog closes with no sheet pending |
| SheetViewer.ZoomIn | src/components/SheetViewer/SheetViewer.jsx:99 | zooming in is the smaller of one more quarter and 3.0 |
| SheetViewer.ZoomOut | src/components/SheetViewer/SheetViewer.jsx:100 | zooming out is the larger of one quarter less and 0.5 |
| SheetViewer.ZoomMatchesScale | src/components/SheetViewer/SheetViewer.jsx:99-101 | the quarter updaters compute the source's real `Math.min(s + 0.25, 3.0)` and `Math.max(s - 0.25, 0.5)`; the reset value is 1.0 |
| SheetViewer.ZoomPercent | src/components/SheetViewer/SheetViewer.jsx:170 | the reset button's percentage is the zoom factor times 100 |
| SheetViewer.PrevPage | src/components/SheetViewer/SheetViewer.jsx:104 | the previous page never goes below 1 |
| SheetViewer.NextPage | src/components/SheetViewer/SheetViewer.jsx:105 | the next page never goes past the page count |
| SheetViewer.DisabledIffNoOp | src/components/SheetViewer/SheetViewer.jsx:166-186 | within bounds, each button is disabled exactly when pressing it changes nothing: zoom in at 3.0, zoom out at 0.5, previous at page 1, next at the last page |
| SheetViewer.SinglePageStays | src/components/SheetViewer/SheetViewer.jsx:178 | page controls show only for a PDF of more than one page, and a one-page document stays on page 1 |
| SheetViewer.IsPdf | src/components/SheetViewer/SheetViewer.jsx:35 | the viewer treats a sheet as a PDF exactly when the sheet list badges it "PDF" (`src/components/SheetList/SheetList.jsx:131`) |
| SheetViewer.ShowsPageControls | src/components/SheetViewer/SheetViewer.jsx:178 | no page controls for an image; for a loaded PDF, controls show exactly when the next-page button can move off page 1 |
| SheetViewer.KeyMap | src/components/SheetViewer/SheetViewer.jsx:118-131 | Escape closes, the arrows move the page, "+" and "=" zoom in, "-" zooms out, "0" resets to 1.0, and any other key changes nothing |
| SheetViewer.KeyPress | src/components/SheetViewer/SheetViewer.jsx:118-131 | one key press keeps the page and zoom in bounds, and an unbound key changes nothing |
| SheetViewer.RunStaysBounded | src/components/SheetViewer/SheetViewer.jsx:104-105 | any sequence of key presses keeps the page between 1 and the page count and the zoom between 0.5 and 3.0 |
| SheetViewer.Viewer.constructor | src/components/SheetViewer/SheetViewer.jsx:25-35 | the viewer opens on page 1 of 1 at zoom 1.0, and it is a PDF viewer exactly for the PDF type |
| SheetViewer.Viewer.DocumentLoaded | src/components/SheetViewer/SheetViewer.jsx:50 | the page count becomes the document's, and the page and zoom stay in bounds |
| SheetViewer.Viewer.HandleZoomIn | src/components/SheetViewer/SheetViewer.jsx:99 | the zoom factor becomes the smaller of 0.25 more and 3.0 |
| SheetViewer.Viewer.HandleZoomOut | src/components/SheetViewer/SheetViewer.jsx:100 | the zoom factor becomes the larger of 0.25 less and 0.5 |
| SheetViewer.Viewer.HandleZoomReset | src/components/SheetViewer/SheetViewer.jsx:101 | the zoom factor becomes 1.0 |
| SheetViewer.Viewer.HandlePrevPage | src/components/SheetViewer/SheetViewer.jsx:104 | the page moves back one, not below 1 |
| SheetViewer.Viewer.HandleNextPage | src/components/SheetViewer/SheetViewer.jsx:105 | the page moves on one, not past the last page |
| SheetViewer.Viewer.HandleKeyPress | src/components/SheetViewer/SheetViewer.jsx:118-131 | the state moves as `KeyPress` says for the key, and the page and zoom stay in bounds |

## Left out

- JSON and `localStorage` are not modelled in detail. A stored collection is
  either the serialised records or text that fails to parse, and parsing is
  taken to give the saved records back. Values JSON would drop or change
  (`undefined` fields, functions, dates) are not distinguished.
- Database.SimpleDatabase.SaveToStorage: writes always succeed. The source
  catches a failing write (quota exceeded) and only logs it. In that case
  the storage keeps its old contents, which the model does not represent.
- Database.SimpleDatabase.Init: reading the storage never fails. Only a
  parse failure leads to the `false` result.
- Database.SimpleDatabase.GetPlaylistSheets: requires the playlist's
  `sheetIds` to be a list. The source's `includes` would also run on a
  string (a substring test) and throws on other values.
- Ids are compared structurally. JavaScript's `===` compares lists and
  objects by reference. Records made by `addSheet` and `addPlaylist` have
  text ids (`Database.NewSheetFields`, `Database.NewPlaylistFields`), where
  the two agree. An update that sets `_id` to an object or a list
  (`src/services/database.js:64-68`, `src/services/database.js:109-113`) is
  matched by value here, but by reference in JavaScript. There a freshly
  built equal object finds nothing, and the update fails with "not found".
- AppStore.Store.UpdateSheet and AppStore.Store.UpdatePlaylist: the mirror
  is only promised when ids are unique. With duplicate ids the store and
  the service really do diverge (see above).
- The store's `catch` branches cannot be reached in the model:
  - the service's add and delete never throw;
  - `initialize` never throws, so its error branch is absent;
  - only update's not-found failure is modelled, and the re-raise becomes
    the `Failure` result.
- The brief `loading = true` while `initialize` awaits is not observable.
  The model only states the final `loading = false`.
- All operations are modelled as atomic. Concurrency between awaited calls
  (two mutations racing) is left out.
- `FileReader` becomes the `dataUrl` parameter and is taken to succeed.
  FileUpload.UploadForm.HandleUpload therefore has no "Upload failed: …"
  path, since neither reading a file nor `addSheet` can fail in the model.
- The `setTimeout` that clears the success message after three seconds is
  left out. So are the file-input reset, drag-and-drop state and
  `handleInputChange`/`handleDrop`, which only pass files on to
  `handleFileSelect`.
- SheetList.Lower: lower-cases ASCII letters only. Unicode `toLowerCase`
  is not modelled.
- SheetList.FilteredSheets: requires every sheet name to be text when the
  query is not blank. The source throws a TypeError on any other name.
  SheetList.Thumbnail likewise requires the type to be text.
- The viewer's PDF loading and page rendering through pdf.js, the canvas,
  `requestFullscreen`, its `loading` and `error` state, and the registering
  of the window key listener are left out. `onClose` becomes the `closed`
  flag.
- SheetViewer.Viewer.DocumentLoaded: requires a PDF with at least one page,
  loaded while still on page 1. pdf.js reports at least one page, and the
  page cannot leave 1 while the page count is 1.
- Date formatting (`formatDate`), the file icons and all other JSX layout
  are presentation only.
