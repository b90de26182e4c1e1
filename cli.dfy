/**
 * `main`: turn the parsed command line into the two filter settings, falling
 * back to the configured defaults, refuse a run with neither, and derive the
 * exit code from the organizer's counters.
 */
module Cli {

  import opened Wrappers
  import opened Strings
  import opened Patterns
  import opened Criteria
  import opened FileTree
  import opened Filters
  import opened Organizer

  /**
   * The parsed command line. A list option that was not given is empty (the
   * parser never yields an empty list for an option that was given); a size
   * option that was not given is `None`.
   */
  datatype Args = Args(
    namePattern: seq<string>,
    fileType: seq<string>,
    minSizeMB: Option<real>,
    maxSizeMB: Option<real>,
    folderNamePattern: seq<string>,
    folderFileType: seq<string>,
    folderMinSizeMB: Option<real>,
    folderMaxSizeMB: Option<real>,
    copy: bool,
    dryRun: bool)

  /** The configured defaults: both migrations are off. */
  const FilesToMigrate: Setting := NoSetting
  const FoldersToMigrate: Setting := NoSetting

  predicate HasFileOptions(a: Args) {
    a.namePattern != [] || a.fileType != [] || a.minSizeMB.Some? || a.maxSizeMB.Some?
  }

  predicate HasFolderOptions(a: Args) {
    a.folderNamePattern != [] || a.folderFileType != [] || a.folderMinSizeMB.Some? || a.folderMaxSizeMB.Some?
  }

  /** A list option as a dictionary value: `None` when not given, the one string when given once, the list otherwise. */
  function Collapse(xs: seq<string>): Entry<OneOrMany> {
    if xs == [] then Null
    else if |xs| == 1 then Val(One(xs[0]))
    else Val(Many(xs))
  }

  /** A size option as a dictionary value. */
  function BoundEntry(o: Option<real>): Entry<real> {
    if o.Some? then Val(o.value) else Null
  }

  /** The file setting `main` hands to the organizer: a four-key dict built from the options, or the default. */
  function FileSetting(a: Args, default: Setting): Setting {
    if HasFileOptions(a) then
      DictSetting(FilterDict(Collapse(a.namePattern), Collapse(a.fileType), BoundEntry(a.minSizeMB), BoundEntry(a.maxSizeMB), 0))
    else default
  }

  /** The folder setting `main` hands to the organizer: a four-key dict built from the options, or the default. */
  function FolderSetting(a: Args, default: Setting): Setting {
    if HasFolderOptions(a) then
      DictSetting(FilterDict(Collapse(a.folderNamePattern), Collapse(a.folderFileType),
                             BoundEntry(a.folderMinSizeMB), BoundEntry(a.folderMaxSizeMB), 0))
    else default
  }

  /** Collapsing a one-element list to its string does not change what the name axis accepts. */
  lemma CollapseKeepsNameAxis(xs: seq<string>, name: string, isFolder: bool)
    ensures NameAxis(Collapse(xs).Get(), name, isFolder) <==> xs == [] || AnyNameMatches(xs, name, isFolder)
  {
    if |xs| == 1 {
      OnePatternIsSingletonList(xs[0], name, isFolder);
      assert [xs[0]] == xs;
    }
  }

  /** Collapsing a one-element list to its string does not change what the type axis accepts. */
  lemma CollapseKeepsTypeAxis(xs: seq<string>, ext: string)
    ensures TypeAxis(Collapse(xs).Get(), ext) <==> xs == [] || ExtMatches(ext, NormaliseTypes(xs))
  {
    if |xs| == 1 {
      assert AsList(One(xs[0])) == xs;
    }
  }

  /**
   * A file filter built from the command line accepts a file exactly when
   * its stem passes one of the `-p` patterns (if any), its extension one of
   * the `-t` types (if any), its `stat()` succeeds and its size lies within
   * the given bounds.
   */
  lemma CommandLineFileFilter(a: Args, f: Node)
    requires HasFileOptions(a) && f.File?
    ensures FileSetting(a, FilesToMigrate).DictSetting?
    ensures var parts := SplitExt(f.name);
            FileMatches(FileSetting(a, FilesToMigrate).d, f)
            <==> && (a.namePattern == [] || AnyNameMatches(a.namePattern, parts.0, false))
                 && (a.fileType == [] || ExtMatches(parts.1, NormaliseTypes(a.fileType)))
                 && f.statOk
                 && SizeAxis(SizeMB(f.size), a.minSizeMB, a.maxSizeMB)
  {
    var parts := SplitExt(f.name);
    CollapseKeepsNameAxis(a.namePattern, parts.0, false);
    CollapseKeepsTypeAxis(a.fileType, parts.1);
  }

  /**
   * A folder filter built from the command line accepts a folder exactly
   * when its name passes one of the `--folder-pattern` patterns (if any), its
   * subtree holds a file of one of the `--folder-contains` types (if any),
   * and its readable size lies within the given bounds.
   */
  lemma CommandLineFolderFilter(a: Args, d: Node)
    requires HasFolderOptions(a) && d.Dir?
    ensures FolderSetting(a, FoldersToMigrate).DictSetting?
    ensures FolderMatches(FolderSetting(a, FoldersToMigrate).d, d)
            <==> && (a.folderNamePattern == [] || AnyNameMatches(a.folderNamePattern, d.name, true))
                 && (a.folderFileType == [] || HasFileOfType(d, NormaliseTypes(a.folderFileType)))
                 && SizeAxis(SizeMB(ReadableBytes(d)), a.folderMinSizeMB, a.folderMaxSizeMB)
  {
    CollapseKeepsNameAxis(a.folderNamePattern, d.name, true);
    if |a.folderFileType| == 1 {
      assert AsList(One(a.folderFileType[0])) == a.folderFileType;
    }
  }

  /**
   * With the configured defaults, a command line that names any option
   * enables that migration, so the run never reaches the display's
   * exception; one that names none disables both.
   */
  lemma CommandLineRunsNeverRaise(a: Args)
    ensures HasFileOptions(a) ==> Enabled(FilePatternOf(FileSetting(a, FilesToMigrate)))
    ensures HasFolderOptions(a) ==> Enabled(FolderFilterOf(FolderSetting(a, FoldersToMigrate)))
    ensures HasFileOptions(a) || HasFolderOptions(a) <==>
              !(FileSetting(a, FilesToMigrate) == NoSetting && FolderSetting(a, FoldersToMigrate) == NoSetting)
    ensures HasFileOptions(a) || HasFolderOptions(a) ==>
              !(!Enabled(FolderFilterOf(FolderSetting(a, FoldersToMigrate)))
                && FilePatternOf(FileSetting(a, FilesToMigrate)).None?)
  {
  }

  /**
   * The exit status of a configured run: 1 when the run raises, 0 when the
   * source is not a directory (the run does nothing), and otherwise 1
   * exactly when the run (the folder phase and then the file phase folded
   * over their selections from zeroed counters) ends with a non-zero error
   * counter.
   */
  function RunStatus(files: Setting, folders: Setting, copy: bool, dryRun: bool,
                     sourceKind: SourceKind, entries: seq<Node>, dest: map<string, Node>,
                     faultOf: string -> IoFault): int
  {
    if !Enabled(FolderFilterOf(folders)) && FilePatternOf(files).None? then 1
    else if !sourceKind.Directory? then 0
    else
      var run := RunOf(FilePatternOf(files), FolderFilterOf(folders), sourceKind == Directory(true),
                       State(entries, dest, Stats(0, 0, 0, 0, 0, 0)), Env(copy, dryRun, faultOf));
      if run.stats.errors > 0 then 1 else 0
  }

  /**
   * What the status of a configured run means: it is 0 or 1, and it is 1
   * exactly when the run raises, or when a real run over a directory meets a
   * selected folder or file whose name is free at the destination and which
   * the filesystem refuses.
   */
  lemma RunStatusMeaning(files: Setting, folders: Setting, copy: bool, dryRun: bool,
                         sourceKind: SourceKind, entries: seq<Node>, dest: map<string, Node>,
                         faultOf: string -> IoFault)
    ensures var code := RunStatus(files, folders, copy, dryRun, sourceKind, entries, dest, faultOf);
            var start := State(entries, dest, Stats(0, 0, 0, 0, 0, 0));
            var listable := sourceKind == Directory(true);
      && (code == 0 || code == 1)
      && (code == 1 <==>
            || (!Enabled(FolderFilterOf(folders)) && FilePatternOf(files).None?)
            || (&& !dryRun && sourceKind.Directory?
                && MeetsRefusal(FilePatternOf(files), FolderFilterOf(folders), listable, start,
                                Env(copy, dryRun, faultOf))))
  {
    var pattern, filter := FilePatternOf(files), FolderFilterOf(folders);
    if (Enabled(filter) || pattern.Some?) && sourceKind.Directory? {
      var start, env := State(entries, dest, Stats(0, 0, 0, 0, 0, 0)), Env(copy, dryRun, faultOf);
      var run := RunOf(pattern, filter, sourceKind == Directory(true), start, env);
      assert RunStatus(files, folders, copy, dryRun, sourceKind, entries, dest, faultOf)
             == if run.stats.errors > 0 then 1 else 0;
      RunFails(pattern, filter, sourceKind == Directory(true), start, env);
    }
  }

  /** The exit status of `main` after argument parsing: 1 when neither migration is configured, otherwise that of the run. */
  function ExitCode(a: Args, filesDefault: Setting, foldersDefault: Setting,
                    sourceKind: SourceKind, entries: seq<Node>, dest: map<string, Node>,
                    faultOf: string -> IoFault): int
  {
    var files, folders := FileSetting(a, filesDefault), FolderSetting(a, foldersDefault);
    if files == NoSetting && folders == NoSetting then 1
    else RunStatus(files, folders, a.copy, a.dryRun, sourceKind, entries, dest, faultOf)
  }

  /**
   * What the exit status means: it is 0 or 1, and it is 1 exactly when
   * neither migration is configured, when the run raises, or when a real
   * (not dry) run over a directory meets a selected folder or file whose
   * name is still free at the destination and which the filesystem refuses.
   */
  lemma ExitCodeMeaning(a: Args, filesDefault: Setting, foldersDefault: Setting,
                        sourceKind: SourceKind, entries: seq<Node>, dest: map<string, Node>,
                        faultOf: string -> IoFault)
    ensures var code := ExitCode(a, filesDefault, foldersDefault, sourceKind, entries, dest, faultOf);
            var files, folders := FileSetting(a, filesDefault), FolderSetting(a, foldersDefault);
            var unconfigured := files == NoSetting && folders == NoSetting;
            var raises := !Enabled(FolderFilterOf(folders)) && FilePatternOf(files).None?;
            var start := State(entries, dest, Stats(0, 0, 0, 0, 0, 0));
            var listable := sourceKind == Directory(true);
      && (code == 0 || code == 1)
      && (code == 1 <==>
            || unconfigured || raises
            || (&& !a.dryRun && sourceKind.Directory?
                && MeetsRefusal(FilePatternOf(files), FolderFilterOf(folders), listable, start,
                                Env(a.copy, a.dryRun, faultOf))))
  {
    var files, folders := FileSetting(a, filesDefault), FolderSetting(a, foldersDefault);
    if !(files == NoSetting && folders == NoSetting) {
      assert ExitCode(a, filesDefault, foldersDefault, sourceKind, entries, dest, faultOf)
             == RunStatus(files, folders, a.copy, a.dryRun, sourceKind, entries, dest, faultOf);
      RunStatusMeaning(files, folders, a.copy, a.dryRun, sourceKind, entries, dest, faultOf);
    }
  }

  /**
   * `main` after argument parsing: refuse a run with neither migration,
   * otherwise run the organizer and take its status.
   */
  method Run(a: Args, filesDefault: Setting, foldersDefault: Setting,
             sourceKind: SourceKind, entries: seq<Node>, dest: map<string, Node>,
             faultOf: string -> IoFault)
    returns (code: int)
    ensures code == ExitCode(a, filesDefault, foldersDefault, sourceKind, entries, dest, faultOf)
  {
    var files, folders := FileSetting(a, filesDefault), FolderSetting(a, foldersDefault);
    if files == NoSetting && folders == NoSetting {
      return 1;
    }
    code := RunConfigured(files, folders, a.copy, a.dryRun, sourceKind, entries, dest, faultOf);
  }

  /**
   * The rest of `main`: build the organizer, run it, and exit 1 when it
   * raised or recorded an error, 0 otherwise.
   */
  method RunConfigured(files: Setting, folders: Setting, copy: bool, dryRun: bool,
                       sourceKind: SourceKind, entries: seq<Node>, dest: map<string, Node>,
                       faultOf: string -> IoFault)
    returns (code: int)
    ensures code == RunStatus(files, folders, copy, dryRun, sourceKind, entries, dest, faultOf)
  {
    var organizer := new FileOrganizer(files, folders, copy, dryRun, sourceKind, entries, dest);
    var result := organizer.Organize(faultOf);
    if result.None? {
      return 1;
    }
    code := if result.value.errors > 0 then 1 else 0;
  }
}
