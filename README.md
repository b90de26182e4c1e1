# Pattern-based file and folder organizer, modelled in Dafny

This project models the core of `file_folder_migration.py`, a script that moves
or copies the files and folders directly under a source directory into a
destination directory. It migrates only the entries that pass a composite
filter. The filter has three axes, all AND-ed:

- **Name.** A list of patterns, OR-ed: `^X$` exact, `^X` prefix, `X$` suffix,
  `*X*` substring, and otherwise suffix.
- **Type.** A list of extensions, OR-ed and compared ignoring case. For a
  folder, the test is whether some file anywhere in its subtree has one of
  them.
- **Size.** Inclusive minimum and maximum in MiB. For a folder, the size is
  the sum over the files whose size can be read.

The model covers these parts of `FileOrganizer`:

- the constructor's normalisation of its two settings;
- the two matchers and the two enumerations of the source directory;
- the per-item migration state machine, with its six counters;
- the control flow of `organize`: the methods are proved to leave the
  organizer in the state a pure fold of that state machine over the two
  selections gives (`Organizer.RunOf`), and the lemmas beside it say what
  that fold does to the errors, the counts and the destination.

It also covers `main`'s construction of the two filter dictionaries from the
command line, and its exit code.

Files, one module each:

- `wrappers.dfy`: `Option`.
- `strings.dfy`: the Python string operations the script relies on.
  - `startswith`, `endswith` and `in`.
  - Slicing with negative bounds.
  - ASCII `lower`.
  - `os.path.splitext` on a bare name.
- `patterns.dfy`: the name-pattern chain and the OR across patterns.
- `criteria.dfy`: the filter dictionary and the three axes.
- `filetree.dfy`: a directory tree and the `os.walk` order, with the two
  folder aggregations written as the script's nested loops.
- `filters.dfy`: the two matchers as predicates, and what each enumeration
  selects.
- `organizer.dfy`: the `FileOrganizer` class.
- `cli.dfy`: `main` after argument parsing.

The filesystem is abstract:

- A source kind: absent, not a directory, or a directory that can or cannot
  be listed.
- The source directory's entries, in listing order, as trees of
  `File(name, size, statOk)` and `Dir(name, children, listable)`.
- The destination directory's entries, by name.

Whether `mkdir`, copy or move raises for a given name is an input
(`faultOf`).

Behaviour of the code worth noting:

- An empty pattern list or an empty type list accepts nothing. It is not
  treated like an absent key.
- An invalid source (missing, or not a directory) makes `organize` return
  the counters untouched. `main` then exits with 0, not 1.
- The folder default test "equal or ends with", which the comments at
  file_folder_migration.py:128 and :427 describe as "Exact match or ends
  with", is the file default "ends with" in disguise
  (`Patterns.FolderAndFileAgree`).
- When folder migration is off, the criteria display at the start of
  `organize` reads the file pattern. With no file pattern, or with one the
  constructor discarded (a list), the run raises before doing anything.
  `main` then exits with 1. The model represents this as `Organize`
  returning `None`.

## Model

| member | source | states |
|---|---|---|
| Strings.Bound | file_folder_migration.py:350-369 | A Python slice bound. An index within the string is kept, and a negative one within it counts from the end. An index past the end becomes the length, and one before the start becomes 0. |
| Strings.PySlice | file_folder_migration.py:350-369 | A Python slice never fails and is never longer than the string. With bounds in order inside the string, it is exactly the characters between them. |
| Strings.Inner | file_folder_migration.py:351 | `p[1:-1]` is the text between the first and last characters, and empty for patterns shorter than two. |
| Strings.DropFirst | file_folder_migration.py:356 | `p[1:]` drops the first character, and the empty pattern stays empty. |
| Strings.DropLast | file_folder_migration.py:361 | `p[:-1]` drops the last character, and the empty pattern stays empty. |
| Strings.LowerChar | file_folder_migration.py:391 | A capital letter becomes its own small letter, 32 code points on. Every other character is kept. No capital is left. |
| Strings.Lower | file_folder_migration.py:391 | `lower()` keeps the length and lower-cases each character in place. |
| Strings.LowerIdempotent | file_folder_migration.py:492 | Lower-casing an already lower-cased extension changes nothing. |
| Strings.LowerCharAlike | file_folder_migration.py:391 | Two characters lower-case alike iff they are the same, or the same letter in the other case. |
| Strings.LowerAlike | file_folder_migration.py:391 | `ext.lower() == t.lower()` iff the two strings have the same length and agree at every position up to the case of an ASCII letter. |
| Strings.LastDot | file_folder_migration.py:339 | The index found is a dot with no dot after it; with no index found, the name has no dot at all. |
| Strings.SplitExt | file_folder_migration.py:339 | `os.path.splitext`: stem + extension rebuilds the name. The extension is empty or a dot followed by non-dots. It is non-empty exactly when some dot has a non-dot before it. |
| Strings.SplitAtLastDot | file_folder_migration.py:339 | A name whose last dot has a non-dot before it splits just before that dot. |
| Patterns.MatchName | file_folder_migration.py:349-374 | Defines one pattern against one name as the if/elif chain: `^X$` exact, `^X` prefix, `X$` suffix, `*X*` substring, otherwise suffix ("equal or ends with" for a folder), all case-sensitive. |
| Patterns.ExactForm | file_folder_migration.py:350-353 | A pattern that starts with `^` and ends with `$` has at least two characters and is only ever an exact test on `p[1:-1]`. |
| Patterns.PrefixForm | file_folder_migration.py:355-358 | `^X` without a trailing `$` is a prefix test on `X`. |
| Patterns.SuffixForm | file_folder_migration.py:360-363 | `X$` without a leading `^` is a suffix test on `X`. |
| Patterns.SubstringForm | file_folder_migration.py:365-368 | `*X*` that no earlier form caught is a substring test on `p[1:-1]`. |
| Patterns.DefaultForm | file_folder_migration.py:370-373 | Any other pattern is a suffix test. |
| Patterns.FolderAndFileAgree | file_folder_migration.py:469-473 | The folder default "equal or ends with" gives the same answer as the file default "ends with", so the matcher agrees for files and folders. |
| Patterns.CaretMatchesAll | file_folder_migration.py:355-358 | `^` is a prefix test on the empty string and accepts every name. |
| Patterns.DollarMatchesAll | file_folder_migration.py:360-363 | `$` is a suffix test on the empty string and accepts every name. |
| Patterns.StarMatchesAll | file_folder_migration.py:365-368 | `*` is a substring test on the empty `p[1:-1]` and accepts every name. |
| Patterns.DegeneratePatternsMatchAll | file_folder_migration.py:350-373 | `^`, `$`, `*` and the empty pattern accept every name. |
| Patterns.CaretDollarMatchesOnlyEmpty | file_folder_migration.py:350-353 | `^$` accepts only the empty name. |
| Patterns.AnyNameMatches | file_folder_migration.py:344-377 | Defines the OR across a pattern list: some pattern of the list accepts the name. |
| Patterns.AnyNameMatchesAppend | file_folder_migration.py:344-374 | A pattern list accepts a name iff one of its two parts does: the patterns are OR-ed. |
| Patterns.AnyPatternMatches | file_folder_migration.py:348-377 | The loop with `break` over the patterns returns true exactly when some pattern accepts the name. |
| Criteria.NameOnly | file_folder_migration.py:273 | Defines the filter `{"name_pattern": v}` that the constructor builds from a bare string file setting (:273) and from a string or list folder setting (:288, :290): only the name is filtered, and every other key is absent. |
| Criteria.NameAxis | file_folder_migration.py:342-377 | Defines the name axis: an absent `name_pattern` imposes nothing; a string is a one-pattern list; otherwise some pattern must accept the name. |
| Criteria.EmptyPatternListMatchesNothing | file_folder_migration.py:342-377 | An empty pattern list rejects every name, while an absent name pattern imposes nothing. |
| Criteria.OnePatternIsSingletonList | file_folder_migration.py:345 | A single pattern string behaves exactly as the one-element list holding it, and as that one pattern. |
| Criteria.NormaliseType | file_folder_migration.py:386 | A normalised type starts with a dot, is unchanged if it already did, and ends with the type as given. |
| Criteria.NormaliseTypeIdempotent | file_folder_migration.py:386 | Normalising twice equals normalising once. |
| Criteria.NormaliseTypes | file_folder_migration.py:386 | Defines the list comprehension: each type of the list normalised in place. |
| Criteria.ExtMatches | file_folder_migration.py:388-396 | Defines the type test: the extension equals some type of the list once both are lower-cased. |
| Criteria.TypeAxis | file_folder_migration.py:380-396 | Defines the file type axis: an absent `file_type` imposes nothing; otherwise the extension must match one of the normalised types. |
| Criteria.EmptyTypeListMatchesNothing | file_folder_migration.py:380-396 | An empty type list rejects every extension, while an absent type imposes nothing. |
| Criteria.NoExtensionNeverMatches | file_folder_migration.py:386-396 | A file without an extension never passes a type filter, since every normalised type starts with a dot. |
| Criteria.UpperCaseExtensionMatches | file_folder_migration.py:383-396 | `.JPG` passes `[".pdf", ".jpg"]` and also `"jpg"` given without its dot, while `.PNG` does not pass the list. |
| Criteria.AnyTypeMatches | file_folder_migration.py:388-396 | The loop with `break` over the types returns true exactly when the extension equals some type, ignoring case. |
| Criteria.SizeAxis | file_folder_migration.py:402-410 | Defines the size axis: below a given minimum or above a given maximum is rejected; an absent bound imposes nothing. |
| Criteria.SizeMB | file_folder_migration.py:400 | Defines the size in MiB as `st_size / (1024 * 1024)`, used for files (:400) and for each file added to a folder's total (:513). |
| Criteria.SizeBoundsInclusive | file_folder_migration.py:402-410 | The size axis holds iff min ≤ size ≤ max; both bounds are inclusive. |
| Criteria.InvertedBoundsRejectAll | file_folder_migration.py:402-410 | When min > max, every size is rejected. |
| Criteria.SizeMBAdd | file_folder_migration.py:513 | Adding sizes in MiB agrees with adding them in bytes, so the folder loop's running MiB total is the total in bytes converted once. |
| FileTree.Walk | file_folder_migration.py:509-510 | Defines `os.walk` top-down: one step per listable directory, holding its files, then the walks of its subdirectories in order; an unlistable directory yields nothing. |
| FileTree.ReadableBytes | file_folder_migration.py:506-515 | Defines the reference folder size: the sizes of the files whose `stat()` succeeds, below directories that can be listed. |
| FileTree.ReadableWithinAll | file_folder_migration.py:508-515 | A folder's readable bytes never exceed all the bytes stored under it: an unreadable file contributes 0, not an error. |
| FileTree.WalkSize | file_folder_migration.py:509-515 | Summing the readable files over the steps of a walk of a directory gives the readable bytes under it. |
| FileTree.FolderSizeMB | file_folder_migration.py:506-515 | The nested walk loop computes the folder's readable bytes in MiB, skipping files whose `stat()` fails. |
| FileTree.HasFileOfType | file_folder_migration.py:488-497 | Defines the reference containment test: some file in the listable part of the subtree has an extension among the types, ignoring case. |
| FileTree.WalkFindsType | file_folder_migration.py:488-497 | Some file visited by a walk has a matching extension iff some file in the listable part of the subtree does. |
| FileTree.FolderContainsType | file_folder_migration.py:488-503 | The nested walk loop with its two `break`s returns true exactly when the subtree holds a file with one of the types, ignoring case. |
| Filters.FileMatches | file_folder_migration.py:320-417 | Defines what `matches_pattern` accepts: the stem passes the name axis, the extension the type axis, `stat()` succeeds, and the size in MiB passes the size axis. |
| Filters.FolderTypeAxis | file_folder_migration.py:479-503 | Defines the folder's type axis: an absent `file_type` imposes nothing; otherwise the folder's listable subtree must hold a file whose extension equals one of the normalised types, ignoring case. |
| Filters.EmptyFolderTypeListMatchesNothing | file_folder_migration.py:479-503 | An empty `file_type` list rejects every folder, while an absent one imposes nothing. |
| Filters.FolderMatches | file_folder_migration.py:419-532 | Defines what `matches_folder_pattern` accepts: the whole name passes the name axis, the subtree holds a file of one of the types, and the readable size in MiB passes the size axis. |
| Filters.SelectFiles | file_folder_migration.py:544-550 | Defines the file selection: the files of the listing that pass, in listing order. |
| Filters.SelectFolders | file_folder_migration.py:615-622 | Defines the folder selection: the directories of the listing that pass, in listing order. |
| Filters.SelectFilesMembers | file_folder_migration.py:544-550 | A file is selected iff it is in the listing, is a file and passes the filter; the selection is never longer than the listing. |
| Filters.SelectFoldersMembers | file_folder_migration.py:615-622 | A folder is selected iff it is in the listing, is a directory and passes the filter; the selection is never longer than the listing. |
| Filters.FileAndFolderListsDisjoint | file_folder_migration.py:544-546 | No entry is selected by both enumerations. |
| Filters.SelectFilesSnoc | file_folder_migration.py:544-550 | One more entry at the end of the listing is selected after all earlier ones exactly when it is a file that passes the filters. |
| Filters.SelectFilesOnlySeesFiles | file_folder_migration.py:544-546 | The file selection depends only on the listing's files, so removing directories from the listing does not change it. |
| Filters.ExampleNamesSplit | file_folder_migration.py:339 | `report_1.pdf` splits into `report_1` and `.pdf`, and `report_2.txt` into `report_2` and `.txt`. |
| Filters.ExampleNamePattern | file_folder_migration.py:370-373 | `_1` is a plain suffix pattern: it accepts `report_1` and rejects `report_2`. |
| Filters.ExamplePdfType | file_folder_migration.py:380-396 | The type setting `.pdf` accepts the extension `.pdf`. |
| Filters.ExampleAxes | file_folder_migration.py:342-396 | The example filter (name `_1`, type `.pdf`) accepts the stem `report_1`, rejects `report_2`, and accepts the type `.pdf`. |
| Filters.ExampleReport1Passes | file_folder_migration.py:339-417 | Under that filter, `report_1.pdf` (2 MB) passes. |
| Filters.ExampleReport2Fails | file_folder_migration.py:339-377 | Under that filter, `report_2.txt` (1 MB) fails on its name. |
| Filters.SelectFilesOfThree | file_folder_migration.py:544-550 | From a passing file, a failing file and a directory, in that order, only the passing file is selected. |
| Filters.ExampleFileSelection | file_folder_migration.py:541-555 | From `report_1.pdf` (2 MB), `report_2.txt` (1 MB) and a folder, the filter with name `_1` and type `.pdf` selects `report_1.pdf` alone. |
| Filters.ExampleFolderMatches | file_folder_migration.py:505-531 | A folder holding one readable 150 MiB file passes a 100 MiB minimum. |
| Filters.ExampleFolderSelection | file_folder_migration.py:612-627 | Beside two files, that folder is the only one selected. |
| Organizer.FilePatternOf | file_folder_migration.py:268-276 | The file setting is kept iff it is a dict or a string; a string becomes `{"name_pattern": s}`, and anything else, a list included, disables file migration. |
| Organizer.FolderFilterOf | file_folder_migration.py:282-292 | The folder setting is kept iff it is a dict, a string or a list; a string or list becomes `{"name_pattern": ...}`. |
| Organizer.Enabled | file_folder_migration.py:792 | Defines Python's truth value of a setting: present and a non-empty dictionary. |
| Organizer.StrPatternIsNameOnly | file_folder_migration.py:272-273 | A string file setting accepts exactly the files whose `stat()` succeeds and whose stem passes that one pattern. |
| Organizer.ListFolderFilterIsNameOnly | file_folder_migration.py:289-290 | A list folder setting accepts exactly the folders whose name passes one of its patterns. |
| Organizer.NormalisedSettingsEnabled | file_folder_migration.py:268-292 | String and list folder settings enable folder migration; a string file setting enables file migration, and a list file setting does not. |
| Organizer.OutcomeOf | file_folder_migration.py:571-600 | The order of decisions: a taken name is a conflict; otherwise a dry run is a preview; otherwise a fault is a failure, and no fault is a migration. |
| Organizer.Tally | file_folder_migration.py:573-599 | Each processed item increases exactly one counter, by one, and that counter is the one its outcome names; items with an outcome grow by one and selections are unchanged. |
| Organizer.DryRunNeverErrs | file_folder_migration.py:577-581 | Under a dry run an item is previewed or skipped, and `errors` does not change. |
| Organizer.Without | file_folder_migration.py:591 | Defines the source listing after a move: every entry but the moved one, in order; it is never longer. |
| Organizer.WithoutMembers | file_folder_migration.py:591 | After a move, the source lists every other entry and not the moved one. |
| Organizer.WithoutDirKeepsFiles | file_folder_migration.py:663 | Moving a folder away leaves the files of the source listing as they were. |
| Organizer.Step | file_folder_migration.py:557-600 | Defines one call of `process_file` or `process_folder` on a state: the outcome decided on the destination as it is, a migration adding the item under its name, a move also taking it out of the source, and the outcome tallied. |
| Organizer.Steps | file_folder_migration.py:816-817 | Defines the loop of a phase: `Step` applied to the selected items in order, each on the state the one before it left. |
| Organizer.FolderPhase | file_folder_migration.py:792-805 | Defines the folder phase: `folders_matched` grows by the selection's size, then the selected folders are processed in turn. |
| Organizer.FilePhase | file_folder_migration.py:808-821 | Defines the file phase: `matched` grows by the selection's size, then the selected files are processed in turn. |
| Organizer.RunOf | file_folder_migration.py:791-821 | Defines a run past validation: the folder phase (if folder migration is on) on the folders selected from the listing, then the file phase (if file migration is on) on the files selected from the listing the folder phase left. |
| Organizer.FoldersSelected | file_folder_migration.py:794 | Defines the folders a run processes: the `get_folders_to_migrate` selection of the starting listing when folder migration is on, and none otherwise. |
| Organizer.FilesSelected | file_folder_migration.py:810 | Defines the files a run processes, judged on the starting listing: the `get_matching_files` selection when file migration is on, and none otherwise. |
| Organizer.Conserved | file_folder_migration.py:571-600 | Defines what holds between any two states of a run: destination names keep their entries, the source only loses entries, a copy keeps the source, a dry run changes neither side and records no error. |
| Organizer.StepConserves | file_folder_migration.py:557-672 | One processed item keeps `Conserved`, adds one outcome, leaves both selection counters, records no error without a fault, and, if it is a folder, leaves the source's files alone. |
| Organizer.StepsConserve | file_folder_migration.py:797-817 | A whole loop of items keeps `Conserved` and adds one outcome per item; without faults it records no error; over folders it leaves the source's files alone. |
| Organizer.StepsLeaveName | file_folder_migration.py:571-600 | A name no item of the loop carries, or one that cannot be migrated (dry run, or refused), is at the destination after the loop iff it was before, with the same entry. |
| Organizer.StepsErrors | file_folder_migration.py:576-600 | A loop records exactly one error per item whose name is free at the destination at the start and which the filesystem refuses, and none in a dry run. |
| Organizer.StepsPlace | file_folder_migration.py:583-595 | In a real run, a looped item with a free, unshared name that the filesystem accepts ends at the destination under its name, and a move leaves it out of the source. |
| Organizer.Failures | file_folder_migration.py:597-600 | Defines the count of items whose name is free at the destination and refused by the filesystem. |
| Organizer.FailuresWhereRefused | file_folder_migration.py:597-600 | Two destinations that agree on which refused names are taken give the same failure count. |
| Organizer.FailuresPositive | file_folder_migration.py:597-600 | The failure count is positive iff some item has a free name that the filesystem refuses. |
| Organizer.StepsPrefix | file_folder_migration.py:816-817 | Processing one more item of a selection is one more `Step`. |
| Organizer.FolderPhaseSteps | file_folder_migration.py:792-805 | The folder phase is the loop of `Step` from the state whose `folders_matched` already counts the selection. |
| Organizer.FilePhaseSteps | file_folder_migration.py:808-821 | The file phase is the loop of `Step` from the state whose `matched` already counts the selection. |
| Organizer.FolderPhaseFacts | file_folder_migration.py:792-805 | The folder phase adds the selection's size to `folders_matched` and one outcome per folder, leaves `matched` and the source's files, keeps `Conserved`, and records no error without faults. |
| Organizer.FilePhaseFacts | file_folder_migration.py:808-821 | The file phase adds the selection's size to `matched` and one outcome per file, leaves `folders_matched`, keeps `Conserved`, and records no error without faults. |
| Organizer.SelectedFolders | file_folder_migration.py:615-622 | Every selected folder is a directory of the listing. |
| Organizer.SelectedFiles | file_folder_migration.py:544-550 | Every selected file is a file of the listing. |
| Organizer.FolderPhaseKeepsFileSelection | file_folder_migration.py:792-812 | The file phase selects the same files whether or not the folder phase ran first: moving folders leaves the listing's files. |
| Organizer.PhaseErrors | file_folder_migration.py:597-600 | A phase records one error per selected item with a free, refused name (none in a dry run), and never changes whether a refused name is at the destination. |
| Organizer.RunErrors | file_folder_migration.py:791-821 | A run's error count grows by the failures among the selected folders plus those among the selected files, both judged on the destination at the start, and by nothing in a dry run. |
| Organizer.RunCounts | file_folder_migration.py:791-821 | A run adds to `folders_matched` the number of selected folders and to `matched` the number of selected files, the files judged on the listing at the start. |
| Organizer.MeetsRefusal | file_folder_migration.py:571-600 | Defines "some selected folder or file has a name free at the destination that the filesystem refuses". |
| Organizer.RunFails | file_folder_migration.py:791-821 | A run records an error iff it is real and some selected item has a free name that the filesystem refuses. |
| Organizer.RunPlaces | file_folder_migration.py:791-821 | In a real run, a selected item whose name is free, unshared in the source and accepted by the filesystem ends at the destination under its name, and a move takes it out of the source. |
| Organizer.RunPlacesFolder | file_folder_migration.py:792-821 | `RunPlaces` for a selected folder: the folder phase places it and the file phase leaves it. |
| Organizer.RunPlacesFile | file_folder_migration.py:792-821 | `RunPlaces` for a selected file: the folder phase spares it and the file phase places it. |
| Organizer.FolderPhaseSparesFile | file_folder_migration.py:792-812 | The folder phase leaves a source file's free, unshared name free and does not change the file selection. |
| Organizer.FolderPhasePlaces | file_folder_migration.py:797-801 | The folder phase places a selected folder with a free, unshared, accepted name, and a move takes it out of the source. |
| Organizer.FilePhasePlaces | file_folder_migration.py:813-817 | The file phase places a selected file with a free, unshared, accepted name, and keeps in place an entry placed earlier under a name no selected file carries. |
| Organizer.StepsOfOne | file_folder_migration.py:816-817 | A loop over one item is one `Step`. |
| Organizer.FileRunOfOne | file_folder_migration.py:808-821 | A file-only run selecting one file, into an empty destination, ends with that file alone at the destination, one match, one processed, and the source unchanged on a copy or without the file on a move. |
| Organizer.ExampleRun | file_folder_migration.py:808-821 | Moving files ending in `_1` of type `.pdf` out of `report_1.pdf`, `report_2.txt` and a folder into an empty destination moves `report_1.pdf` alone: matched 1, processed 1, the other two entries left in the source. |
| Organizer.WithoutOfThree | file_folder_migration.py:591 | Moving the first of three distinct entries away leaves the other two in order. |
| Organizer.FileOrganizer.constructor | file_folder_migration.py:265-301 | The two settings are normalised, the flags stored, and all six counters start at 0. |
| Organizer.FileOrganizer.ValidatePaths | file_folder_migration.py:303-318 | The source is valid iff it exists and is a directory. |
| Organizer.FileOrganizer.Listing | file_folder_migration.py:544 | Defines what an enumeration sees: the source entries, or none when the source cannot be listed. |
| Organizer.FileOrganizer.MatchesPattern | file_folder_migration.py:320-417 | The short-circuiting method agrees with the file filter: name on the stem, type on the extension, a readable size, and the size bounds. |
| Organizer.FileOrganizer.MatchesFolderPattern | file_folder_migration.py:419-532 | The short-circuiting method agrees with the folder filter: name, contained type, and readable folder size. |
| Organizer.FileOrganizer.GetMatchingFiles | file_folder_migration.py:534-555 | Returns the files that pass, in listing order (none if the source cannot be listed), each a file of the listing, and increases `matched` by exactly that many. |
| Organizer.FileOrganizer.GetFoldersToMigrate | file_folder_migration.py:602-627 | Returns nothing without a folder filter, otherwise the folders that pass, in order, each a directory of the listing; it increases `folders_matched` by exactly that many. |
| Organizer.FileOrganizer.ProcessFile | file_folder_migration.py:557-600 | Counters change as `Tally` of the outcome. Only a migration adds the file to the destination, under a name that was free, and only a move removes it from the source. The new state is `Step` of the old one. |
| Organizer.FileOrganizer.ProcessFolder | file_folder_migration.py:629-672 | The same for a whole folder, counted in `folders_migrated`; the source's files are left alone. |
| Organizer.FileOrganizer.ProcessFoldersInTurn | file_folder_migration.py:800-801 | The loop over the selected folders leaves the organizer in the state `Steps` gives from the old one. |
| Organizer.FileOrganizer.ProcessFilesInTurn | file_folder_migration.py:816-817 | The loop over the selected files leaves the organizer in the state `Steps` gives from the old one. |
| Organizer.FileOrganizer.MigrateFolders | file_folder_migration.py:792-805 | The folder phase selects the folders that pass and leaves the organizer in the state `FolderPhase` gives for that selection. It keeps `Conserved`, counts one outcome per selected folder, leaves `matched` and the source's files, and records no error without faults. |
| Organizer.FileOrganizer.MigrateFiles | file_folder_migration.py:808-821 | The file phase selects the files that pass and leaves the organizer in the state `FilePhase` gives for that selection, with the same guarantees on both directories and the counters. |
| Organizer.FileOrganizer.DisplayRaises | file_folder_migration.py:733-742 | Defines when the criteria display raises: folder migration is off, so it reads the file pattern, and there is none. |
| Organizer.FileOrganizer.Organize | file_folder_migration.py:784-833 | Raises iff folder migration is off and there is no file pattern. An invalid source changes nothing. Over a valid source, the final state is `RunOf` of the initial one: folders first, then files. It keeps `Conserved`, counts one outcome per selected item, and records no error without faults. |
| Cli.HasFileOptions | file_folder_migration.py:1016-1021 | Defines "some file option was given": a pattern, a type, or a size bound. |
| Cli.HasFolderOptions | file_folder_migration.py:1008-1013 | Defines "some folder option was given": a folder pattern, a contained type, or a folder size bound. |
| Cli.Collapse | file_folder_migration.py:1062-1069 | Defines a list option as a dictionary value: `None` when not given, the string when given once, the list otherwise. |
| Cli.FileSetting | file_folder_migration.py:1056-1085 | Defines the file setting: with any file option, the four-key dictionary built from them; otherwise the configured default. |
| Cli.FolderSetting | file_folder_migration.py:1025-1051 | Defines the folder setting: with any folder option, the four-key dictionary built from them; otherwise the configured default. |
| Cli.CollapseKeepsNameAxis | file_folder_migration.py:1029-1036 | Passing one `--pattern` as a string instead of a list does not change what the name axis accepts, and no `--pattern` imposes nothing. |
| Cli.CollapseKeepsTypeAxis | file_folder_migration.py:1038-1045 | Passing one type as a string instead of a list does not change what the type axis accepts. |
| Cli.CommandLineFileFilter | file_folder_migration.py:1057-1086 | A file filter built from flags accepts a file iff its stem passes a `-p` pattern (if any), its extension a `-t` type (if any), its `stat()` succeeds, and its size is within the given bounds. |
| Cli.CommandLineFolderFilter | file_folder_migration.py:1025-1052 | A folder filter built from flags accepts a folder iff its name passes a `--folder-pattern` (if any), it contains a `--folder-contains` type (if any), and its readable size is within the bounds. |
| Cli.CommandLineRunsNeverRaise | file_folder_migration.py:1007-1093 | With both defaults off, any flag enables its migration, and a run with a flag never reaches the display's exception. Without flags, both settings stay off. |
| Cli.RunStatus | file_folder_migration.py:1096-1110 | Defines the status of a configured run: 1 if it raises, 0 over an invalid source, otherwise 1 iff the run from zeroed counters ends with `errors > 0`. |
| Cli.RunStatusMeaning | file_folder_migration.py:1096-1110 | A configured run's status is 0 or 1, and 1 iff the run raises or is a real run over a directory that selects an item whose free name the filesystem refuses. |
| Cli.ExitCode | file_folder_migration.py:1089-1110 | Defines the exit status: 1 with neither setting configured, otherwise the run's status. |
| Cli.ExitCodeMeaning | file_folder_migration.py:1089-1110 | The exit status is 0 or 1. It is 1 iff neither setting is configured, the run raises, or a real run over a directory selects a folder or file whose name is free at the destination and which the filesystem refuses. |
| Cli.Run | file_folder_migration.py:1089-1110 | `main` after parsing returns `ExitCode`: 1 unconfigured, otherwise the status the organizer's run gives. |
| Cli.RunConfigured | file_folder_migration.py:1096-1110 | Building the organizer and running it gives `RunStatus`: 1 when it raises, otherwise 1 iff its `errors` counter is positive. |

## Left out

- Logging, the criteria display text, `_print_summary` and `setup_logging`: they only produce output. The one effect of the display that matters, its exception when file migration is off and there is no pattern, is modelled.
- `parse_arguments`: its result is the `Cli.Args` record. An option not given is an empty list or `None`, because `nargs='+'` never yields an empty list.
- The real filesystem calls (`exists`, `is_dir`, `iterdir`, `stat`, `mkdir`, `os.walk`, `shutil`). They are abstracted to the tree, the destination map and the fault input.
  - A failing copy or move is modelled as changing nothing, although `copytree` or a cross-device `move` may leave partial results.
  - `mkdir` creating the destination directory is not represented, since an empty destination and a missing one look the same to the exists test.
- `is_file()`/`is_dir()` raising inside the enumeration loop, which would end the enumeration early through its `except PermissionError`: not modelled. An unlistable source yields an empty listing, which matches the `iterdir` failure case.
- The `except` branches around the folder walks: `os.walk` swallows listing errors, and an unlistable directory contributes no files.
- Symbolic links, special files (FIFOs, sockets) and a destination nested inside the source: every entry is a regular file or a directory, and the source listing and the destination are independent.
- Uniqueness of entry names in the source listing is not built into the data model: a listing may repeat a name, and moving an entry away removes every entry equal to it. Only the placement lemmas (`Organizer.RunPlaces` and its helpers `StepsPlace`, `RunPlacesFolder`, `RunPlacesFile`, `FolderPhaseSparesFile`, `FolderPhasePlaces`, `FilePhasePlaces`) need uniqueness, and they require it of the placed item's own name only: no other entry shares that name.
- Floating-point MiB arithmetic: sizes are exact reals `bytes / 1048576`, so rounding in large folder sums is not modelled. Size bounds are finite reals: the `nan` and `inf` values that argparse's `type=float` also accepts cannot be expressed.
- Unicode `str.lower()`: only ASCII letters are folded.
- The race between the exists test and the copy or move: the model is sequential.
- Filter values of the wrong type inside a dictionary (for example a number as `name_pattern`): dictionaries are typed records here.
- Organizer.FileOrganizer.Organize: the counts `matched` and `folders_matched` are not restated in its own contract. They follow from its final state being `RunOf` of the initial one together with `Organizer.RunCounts`, and an invalid source or a raising display leaves the counters as they were.
- Organizer.RunPlaces: the placement of an item is proved only when no other entry of the source shares its name. A real directory guarantees this, but the model's listing does not.
