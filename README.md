# Dock profile builder — a Dafny model

`dock-profile.py` turns a JSON list of dock shortcuts into a configuration profile
that manages the macOS dock. A new profile gets fixed dock settings, an identifier,
two fresh UUIDs and version 1. An existing profile has both tile lists emptied and
the version of its dock payload raised by one. In both cases the script then appends
one tile per JSON entry: application tiles go to `static-apps`, and absolute and
home-relative folder tiles both go to `static-others`.

This project models that builder and proves what it promises:

- `tiles.dfy` (module `Tiles`) has the three tile shapes with their fixed keys. It
  also has `Decode`, which reads a tile back as the (shape, caption, path) it stands
  for and serves as the partner of the three tile builders.
- `categories.dfy` (module `Categories`) models the parsed JSON input as a sequence
  of categories, each holding its `(caption, path)` entries. It defines the tiles
  that the input produces for each list. Its lemmas cover counts, shapes, order
  within a category, unknown categories, and which categories feed `static-others`.
- `profiles.dfy` (module `Profiles`) has the profile value `Document`, the skeleton
  built by `createProfile`, and the class `Profile`. The class is the in-memory
  dictionary whose two tile lists and payload version the builder changes in place.
  Each inner `for` loop of `addItemsToProfile` is its own method, and so is the body
  of the outer loop. Each method's frame (``modifies this`staticApps`` and so on) says which fields it
  changes. Its `ensures` clauses say what those fields hold afterwards.
- `driver.dfy` (module `Driver`) has the checks of `main` as a decision function and
  `os.path.dirname`. It also has the directory step of create mode, both as written
  and as corrected, and one whole run as a method. The run takes the directory step
  as a parameter: `AsWritten` is `main` as the script has it, `Corrected` is `main`
  with the fix from "## Findings". Two example runs use the script's own step.
- `wrappers.dfy` (module `Wrappers`) has the `Option` type.

Inputs from outside the model arrive as parameters:

- The command-line options arrive as `Args`. An option that is absent or empty
  counts as not given, as in Python.
- Each file-system question arrives as a field of `FileSystem`; how the write ends is a
  `WriteResult`.
- The JSON reader's result arrives as `JsonLoad`.
- The profile read back from disk arrives as `Option<Document>`.
- The two UUIDs arrive as strings.

The script's error helper prints a banner and exits; it is modelled as the outcome
`Exit(failure)`. An exception that nothing catches is modelled as `Crashed`.

Some behaviours of the code differ from what a reader of its comments might expect.
The model follows the code:

- Only the payload's `PayloadVersion` (`PayloadContent[0]`) is raised on update. The
  top-level `PayloadVersion` stays as it was.
- In update mode, an unreadable stored profile is not reported through the error
  helper. Neither is a failed write. Both raise uncaught exceptions (`Crashed`).
- In create mode only an I/O error from the write is reported through the error
  helper. The property-list writer can also reject the content, for a string holding
  control characters or a JSON `null` path. That error is not an I/O error, so it
  escapes and the run ends `Crashed`, in create mode as in update mode.
- Create mode reports a missing input file before an existing profile. "Profile
  already exists" therefore needs both paths given and the input file present.
- The script has two JSON errors, and the model keeps them apart: the file cannot be
  opened (`InputUnreadable`), or its text is not JSON (`InputMalformed`).
- Categories are handled in the iteration order of the input object, not in a fixed
  order.

## Model

| member | source | states |
|---|---|---|
| `Tiles.AppTile` | dock-profile.py:33-42 | the app tile is a `file-tile` with `mcx_typehint` 1 and `_CFURLStringType` 0, and it reads back as an app with the given caption and path |
| `Tiles.StaticOtherTile` | dock-profile.py:50-60 | the absolute folder tile is a `directory-tile` with `mcx_typehint` 2, `file-type` 2 and `_CFURLStringType` 0, and it reads back as an absolute folder with the given caption and path |
| `Tiles.RelativeOtherTile` | dock-profile.py:67-76 | the home-relative tile is a `directory-tile` with no `file-data`, with `home directory relative` set to the path and `arrangement` 2, `displayas` 2, `showas` 1, and it reads back as a home-relative folder with the given caption and path |
| `Tiles.BuildDecode` | dock-profile.py:33-76 | each tile the builder recognises is exactly the tile built from its shape, caption and path, so decoding is the inverse of building |
| `Tiles.DecodeInjective` | dock-profile.py:33-76 | two tiles that read as the same shape, caption and path are equal, so the three shapes never collide |
| `Categories.TilesFor` | dock-profile.py:145-152 | within one category, one tile per entry is appended in entry order, each with that entry's own caption and path |
| `Categories.TilesUnder` | dock-profile.py:143-146 | the app tiles appended number the entries under `static-apps`, and every one of them is an app tile |
| `Categories.OthersOf` | dock-profile.py:147-152 | the tiles appended to `static-others` number the entries under `relative-others` plus those under `static-others`, and each is a home-relative or absolute folder tile |
| `Categories.TilesUnderConcat` | dock-profile.py:143-146 | the app tiles of two runs of categories are those of the first run followed by those of the second |
| `Categories.OthersOfConcat` | dock-profile.py:147-152 | the folder tiles of two runs of categories are those of the first run followed by those of the second |
| `Categories.UnknownCategoryIgnored` | dock-profile.py:143-152 | a category with any other name adds nothing to either list, wherever it stands in the input |
| `Categories.OthersByKind` | dock-profile.py:147-152 | the home-relative tiles in `static-others` are exactly those of the `relative-others` entries, and the absolute ones exactly those of the `static-others` entries, each in input order; how the two interleave is left open |
| `Categories.FinderExample` | dock-profile.py:144-146 | an input with one `static-apps` entry (Finder) gives that one app tile and no folder tile |
| `Categories.DownloadsExample` | dock-profile.py:147-149 | an input with one `relative-others` entry (Downloads) gives one home-relative tile and no app tile |
| `Profiles.NewDocument` | dock-profile.py:81-127 | a new profile has both tile lists empty, both versions 1, the identifier at both levels, the two given UUIDs at the top level and in the payload, and the fixed dock settings |
| `Profiles.Profile.AddStaticApp` | dock-profile.py:28-45 | `static-apps` grows by exactly the new app tile at its end; the frame keeps every other field, and the list invariant holds afterwards exactly when it held before |
| `Profiles.Profile.AddStaticOther` | dock-profile.py:48-63 | `static-others` grows by exactly the new absolute folder tile at its end; the frame keeps `static-apps` and the rest, and the list invariant is kept both ways |
| `Profiles.Profile.AddRelativeOther` | dock-profile.py:66-78 | `static-others`, not a third list, grows by exactly the new home-relative tile at its end; the frame keeps `static-apps` and the rest, and the list invariant is kept both ways |
| `Profiles.Profile.AddApps` | dock-profile.py:145-146 | the loop over a `static-apps` category appends exactly that category's app tiles to `static-apps`, in entry order, and changes nothing else |
| `Profiles.Profile.AddRelativeOthers` | dock-profile.py:148-149 | the loop over a `relative-others` category appends exactly that category's home-relative tiles to `static-others`, in entry order, and changes nothing else |
| `Profiles.Profile.AddStaticOthers` | dock-profile.py:151-152 | the loop over a `static-others` category appends exactly that category's absolute folder tiles to `static-others`, in entry order, and changes nothing else |
| `Profiles.Profile.AddCategory` | dock-profile.py:144-152 | one category appends its entries' tiles to the list its name selects, and nothing when the name is not one of the three |
| `Profiles.Profile.AddItems` | dock-profile.py:130-153 | each list becomes its old contents followed by the tiles the input gives it; only the two lists change, and the list invariant is kept both ways |
| `Profiles.Profile.Update` | dock-profile.py:156-169 | the lists hold only the new input's tiles and nothing carries over; the payload version rises by exactly one; the top-level version, UUIDs, identifiers and settings are untouched; the list invariant holds afterwards |
| `Driver.Decide` | dock-profile.py:182-205 | the decision table of `main` in its order: missing paths, then a missing input file, then with `--new` an existing profile before a missing identifier, else create; without `--new`, update exactly when the profile exists |
| `Driver.IdentifierIgnoredWithoutNew` | dock-profile.py:201-205 | without `--new`, the decision does not depend on `--identifier` |
| `Driver.DirName` | dock-profile.py:195 | the parent directory of the profile path is a prefix of it, and it is empty exactly when the path has no `/` |
| `Driver.PrepareParentAsWritten` | dock-profile.py:195-196 | as written, a profile path without `/` never gets past the directory step, and any other path gets past it exactly when the parent exists or can be created |
| `Driver.PrepareParent` | dock-profile.py:195-196 | corrected, a path without `/` always gets past the directory step, and any other path fails it only when the parent is missing and cannot be created |
| `Driver.BareProfileNameCrashesAsWritten` | dock-profile.py:195-196 | for `--profile Dock.mobileconfig`, the step as written fails whatever the file system says, and the corrected step succeeds |
| `Driver.PrepareParentCorrectionIsLocal` | dock-profile.py:195-196 | the correction changes nothing for a profile path that contains a `/` |
| `Driver.Run` | dock-profile.py:182-205 | a profile is written only after a create or update decision and a parsed input; a rejected run exits with the decided error; create writes the new skeleton filled from the input, or exits with a write error when the write raises an I/O error; update writes the stored profile with only the payload version raised and the lists rebuilt; the crashes happen exactly at an unreadable stored profile, the failing directory step, a create write the property-list writer rejects and any failing update write; with the script's own directory step, every create run with a parsed input for a profile path without `/` crashes, and with the corrected step none does unless the writer rejects the content; every written profile keeps apps in `static-apps` and folders in `static-others` |
| `Driver.FinderCreateRun` | dock-profile.py:193-198 | a create run from one `static-apps` entry (Finder) writes a profile with version 1 at both levels, the given identifier, that one app tile and no folder tile |
| `Driver.DownloadsUpdateRun` | dock-profile.py:201-203 | an update run of a stored profile at payload version 3 that holds an app tile, from one `relative-others` entry (Downloads), writes payload version 4, the same top-level version and UUIDs, no app tile and the one home-relative tile |

## Findings

| source | as written | input that shows it | evidently intended | confidence | as-written member | corrected member |
|---|---|---|---|---|---|---|
| dock-profile.py:195-196 | `os.path.exists(os.path.dirname(p))` is false when the path has no directory part, so the script calls `os.makedirs("")`. That raises `OSError`, and nothing catches it. | `--new --identifier com.example.dock --input dock.json --profile Dock.mobileconfig` | write `Dock.mobileconfig` into the working directory without creating any directory | high; not executed | `Driver.BareProfileNameCrashesAsWritten` (about `Driver.PrepareParentAsWritten`, and `Driver.Run` with `AsWritten`) | `Driver.PrepareParent` (and `Driver.Run` with `Corrected`) |

## Left out

- Reading and parsing the JSON file is not modelled. Its outcome enters as
  `JsonLoad`, and the text of the parser's message is dropped.
- Reading and writing the property-list file is not modelled: these are foreign
  calls. The stored profile enters as `Option<Document>`. None stands for a file
  that cannot be read as a property list or has no `PayloadContent[0]` with a
  `PayloadVersion`; the script then raises an error nothing catches. How the write
  ends enters as `WriteResult`: it succeeds, raises an I/O error, or is rejected by
  the writer (control characters in a string, a `null` value). Which contents the
  writer rejects is not modelled. A successful write becomes the outcome `Written`.
- The round trip "write, then read back, gives the same profile" is not modelled,
  for the same reason.
- `Driver.Run`: a stored profile can only be one the model can hold as a
  `Document`, that is, the shape that `createProfile` writes. The script updates
  any dictionary with a numeric `PayloadContent[0]["PayloadVersion"]`. It keeps
  other top-level keys, further `PayloadContent` elements and extra payload keys.
  It discards every old list entry, including those that are not one of the three
  tile shapes. The model
  has no field for those extra keys or entries, so a run over such a profile is
  not covered, and the model does not promise that the extra keys are kept.
- `uuid.uuid4()` is not modelled, because it is random. The two UUIDs are parameters.
- Argument parsing, the error banner text and the process exit are not modelled.
  They become `Args`, the `Failure` kinds and the `Exit` outcome.
- The file-system checks (`os.path.isfile`, `os.path.exists`, `os.makedirs`) are not
  modelled as operations. Each is a boolean fixed for the run, so a file system that
  changes during the run is out of scope.
- Python's dict iteration order is unspecified. The input is taken in the order the
  script would iterate it, and no lemma relates it to the text of the JSON file. The
  model also allows a category name to occur twice, which a parsed JSON object cannot
  do; repeated names are treated as successive categories.
- JSON values of other shapes are not modelled: a top-level array, or a category
  whose value is not an object. The script would iterate them differently or fail
  on a lookup.
- A directory created by `os.makedirs` before a failed write stays on disk. The
  model does not track it.
- `createProfile`'s `applist` and `profile` parameters are never read by the script.
  The model's `NewDocument` does not take them.
- Integer widths are not modelled. The version counter is an unbounded integer, as
  it is in Python.
