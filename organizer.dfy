/**
 * `FileOrganizer`: the normalisation of its two filter settings, the two
 * enumerations of the source directory, the per-item migration state
 * machine and the control flow of a whole run.
 *
 * The filesystem is abstracted to what the organizer can observe: what kind
 * of thing the source path is, the entries of the source directory in
 * listing order, and the entries of the destination directory by name.
 */
module Organizer {

  import opened Wrappers
  import opened Strings
  import opened Patterns
  import opened Criteria
  import opened FileTree
  import opened Filters

  // ------------------------------------------------------------- settings

  /** A value handed to the constructor for `pattern` or `folders_to_migrate`. */
  datatype Setting =
    | NoSetting                    // None
    | DictSetting(d: FilterDict)   // a dict
    | StrSetting(s: string)        // a str
    | ListSetting(xs: seq<string>) // a list of str
    | OtherSetting                 // anything else

  /**
   * The constructor's treatment of `pattern`: a dict is kept, a string
   * becomes `{"name_pattern": s}`, and everything else, a list included,
   * disables file migration.
   */
  function FilePatternOf(p: Setting): (r: Option<FilterDict>)
    ensures r.Some? <==> p.DictSetting? || p.StrSetting?
    ensures p.DictSetting? ==> r == Some(p.d)
    ensures p.StrSetting? ==> r == Some(NameOnly(One(p.s)))
  {
    match p
    case DictSetting(d) => Some(d)
    case StrSetting(s) => Some(NameOnly(One(s)))
    case _ => None
  }

  /**
   * The constructor's treatment of `folders_to_migrate`: a dict is kept, a
   * string or a list becomes `{"name_pattern": ...}`, anything else disables
   * folder migration.
   */
  function FolderFilterOf(p: Setting): (r: Option<FilterDict>)
    ensures r.Some? <==> p.DictSetting? || p.StrSetting? || p.ListSetting?
    ensures p.DictSetting? ==> r == Some(p.d)
    ensures p.StrSetting? ==> r == Some(NameOnly(One(p.s)))
    ensures p.ListSetting? ==> r == Some(NameOnly(Many(p.xs)))
  {
    match p
    case DictSetting(d) => Some(d)
    case StrSetting(s) => Some(NameOnly(One(s)))
    case ListSetting(xs) => Some(NameOnly(Many(xs)))
    case _ => None
  }

  /** Python's truth value of an optional dictionary: present and non-empty. */
  predicate Enabled(spec: Option<FilterDict>) {
    spec.Some? && spec.value.NonEmpty()
  }

  /**
   * A string setting is the name-only filter it abbreviates: a file passes
   * exactly when its `stat()` succeeds and its stem passes the one pattern,
   * whatever its type and size.
   */
  lemma StrPatternIsNameOnly(s: string, f: Node)
    requires f.File?
    ensures FilePatternOf(StrSetting(s)).Some?
    ensures FileMatches(FilePatternOf(StrSetting(s)).value, f)
        <==> f.statOk && MatchName(s, SplitExt(f.name).0, false)
  {
    OnePatternIsSingletonList(s, SplitExt(f.name).0, false);
  }

  /**
   * A list of folder patterns is the name-only filter on those patterns: a
   * folder passes exactly when one of them accepts its name.
   */
  lemma ListFolderFilterIsNameOnly(xs: seq<string>, d: Node)
    requires d.Dir?
    ensures FolderFilterOf(ListSetting(xs)).Some?
    ensures FolderMatches(FolderFilterOf(ListSetting(xs)).value, d) <==> AnyNameMatches(xs, d.name, true)
  {
  }

  /** Every setting the constructor keeps for folders is enabled, except an empty dict. */
  lemma NormalisedSettingsEnabled(p: Setting)
    ensures p.StrSetting? || p.ListSetting? ==> Enabled(FolderFilterOf(p))
    ensures p.StrSetting? ==> Enabled(FilePatternOf(p))
    ensures p.ListSetting? ==> !Enabled(FilePatternOf(p))
  {
  }

  // ---------------------------------------------------------------- stats

  /** The six counters of `self.stats`. */
  datatype Stats = Stats(
    matched: nat,
    processed: nat,
    skipped: nat,
    errors: nat,
    foldersMatched: nat,
    foldersMigrated: nat)

  const NoStats := Stats(0, 0, 0, 0, 0, 0)

  /** The counters in their declaration order, for statements about all of them at once. */
  function Counters(s: Stats): seq<nat> {
    [s.matched, s.processed, s.skipped, s.errors, s.foldersMatched, s.foldersMigrated]
  }

  /** How many items have reached an outcome: migrated or previewed, skipped, or failed. */
  function Outcomes(s: Stats): nat {
    s.processed + s.skipped + s.errors + s.foldersMigrated
  }

  /** How many items the enumerations selected. */
  function Matches(s: Stats): nat {
    s.matched + s.foldersMatched
  }

  // ------------------------------------------------- per-item state machine

  /** What the filesystem does when a transfer is attempted: succeed, or raise from `mkdir` or from the copy/move. */
  datatype IoFault = NoFault | MkdirFault | TransferFault

  /** How the processing of one item ends. */
  datatype Outcome =
    | Migrated   // copied or moved
    | Previewed  // dry run: counted, nothing done
    | Conflict   // the destination already has the name: skipped
    | Failed     // an exception was caught: counted as an error

  /**
   * The decision of `process_file` and `process_folder`: an existing
   * destination entry is checked first, then the dry-run flag, and only then
   * is the filesystem touched, where any fault is an error.
   */
  function OutcomeOf(taken: bool, dryRun: bool, fault: IoFault): (o: Outcome)
    ensures o == Conflict <==> taken
    ensures o == Previewed <==> !taken && dryRun
    ensures o == Migrated <==> !taken && !dryRun && fault == NoFault
    ensures o == Failed <==> !taken && !dryRun && fault != NoFault
  {
    if taken then Conflict
    else if dryRun then Previewed
    else if fault != NoFault then Failed
    else Migrated
  }

  /** The index in `Counters` of the counter an outcome bumps. */
  function CounterOf(o: Outcome, isFolder: bool): nat {
    match o
    case Migrated => if isFolder then 5 else 1
    case Previewed => if isFolder then 5 else 1
    case Conflict => 2
    case Failed => 3
  }

  /**
   * The bookkeeping of one processed item: exactly one counter grows, by
   * one. Success and preview share `processed` (files) or
   * `folders_migrated` (folders); a conflict is `skipped` and a fault
   * `errors`, for files and folders alike.
   */
  function Tally(s: Stats, o: Outcome, isFolder: bool): (t: Stats)
    ensures forall j :: 0 <= j < 6 ==> Counters(t)[j] == Counters(s)[j] + (if j == CounterOf(o, isFolder) then 1 else 0)
    ensures Outcomes(t) == Outcomes(s) + 1 && Matches(t) == Matches(s)
  {
    match o
    case Migrated | Previewed =>
      if isFolder then s.(foldersMigrated := s.foldersMigrated + 1) else s.(processed := s.processed + 1)
    case Conflict => s.(skipped := s.skipped + 1)
    case Failed => s.(errors := s.errors + 1)
  }

  /** A dry run never fails and never migrates: it previews or it skips. */
  lemma DryRunNeverErrs(taken: bool, fault: IoFault, s: Stats, isFolder: bool)
    ensures OutcomeOf(taken, true, fault) in {Previewed, Conflict}
    ensures Tally(s, OutcomeOf(taken, true, fault), isFolder).errors == s.errors
  {
  }

  /** `entries` without `x`: the source listing after `x` has been moved away. */
  function Without(es: seq<Node>, x: Node): (r: seq<Node>)
    ensures |r| <= |es|
  {
    if es == [] then []
    else (if es[0] == x then [] else [es[0]]) + Without(es[1..], x)
  }

  /** Moving an entry away removes that entry and keeps every other. */
  lemma {:induction false} WithoutMembers(es: seq<Node>, x: Node, y: Node)
    ensures y in Without(es, x) <==> y in es && y != x
  {
    if es != [] {
      WithoutMembers(es[1..], x, y);
      assert es == [es[0]] + es[1..];
    }
  }

  /** Moving a directory away leaves the files of the listing as they were. */
  lemma {:induction false} WithoutDirKeepsFiles(es: seq<Node>, x: Node)
    requires x.Dir?
    ensures FilesAmong(Without(es, x)) == FilesAmong(es)
  {
    if es != [] {
      var head := if es[0] == x then [] else [es[0]];
      WithoutDirKeepsFiles(es[1..], x);
      FilesAmongAppend(head, Without(es[1..], x));
      if es[0] != x {
        assert FilesAmong(head) == (if es[0].File? then [es[0]] else []) + FilesAmong([]);
      }
    }
  }

  // ----------------------------------------------------------- whole runs

  /** What processing changes: the source listing, the destination and the counters. */
  datatype State = State(entries: seq<Node>, dest: map<string, Node>, stats: Stats)

  /** How a run treats its items: copy or move, real or dry, and how the filesystem answers a transfer under each name. */
  datatype Env = Env(copyMode: bool, dryRun: bool, faultOf: string -> IoFault)

  /**
   * One call of `process_file` (`isFolder` false) or `process_folder`
   * (`isFolder` true): the outcome is decided on the destination as it is
   * now, a migration adds the item to the destination, and a move also
   * takes it out of the source.
   */
  function Step(s: State, x: Node, isFolder: bool, copyMode: bool, dryRun: bool, fault: IoFault): State {
    var o := OutcomeOf(x.name in s.dest, dryRun, fault);
    State(if o == Migrated && !copyMode then Without(s.entries, x) else s.entries,
          if o == Migrated then s.dest[x.name := x] else s.dest,
          Tally(s.stats, o, isFolder))
  }

  /** The loop of a phase: the selected items processed in order, each on the state the one before it left. */
  function Steps(s: State, xs: seq<Node>, isFolder: bool, env: Env): State
    decreases |xs|
  {
    if xs == [] then s
    else
      var x := xs[|xs| - 1];
      Step(Steps(s, xs[..|xs| - 1], isFolder, env), x, isFolder, env.copyMode, env.dryRun, env.faultOf(x.name))
  }

  /** What an enumeration of the source sees: nothing when it cannot be listed. */
  function Listed(s: State, listable: bool): seq<Node> {
    if listable then s.entries else []
  }

  /** The folder phase on its selection: count it in `folders_matched`, then process each folder. */
  function FolderPhase(found: seq<Node>, s: State, env: Env): State {
    Steps(s.(stats := s.stats.(foldersMatched := s.stats.foldersMatched + |found|)), found, true, env)
  }

  /** The file phase on its selection: count it in `matched`, then process each file. */
  function FilePhase(files: seq<Node>, s: State, env: Env): State {
    Steps(s.(stats := s.stats.(matched := s.stats.matched + |files|)), files, false, env)
  }

  /**
   * `organize` past its display and its validation: if folders are on,
   * select folders on the listing and process them; then, if files are on,
   * select files on the listing as the folder phase left it and process
   * them.
   */
  function RunOf(pattern: Option<FilterDict>, folders: Option<FilterDict>, listable: bool, s: State, env: Env): State {
    var afterFolders :=
      if Enabled(folders) then FolderPhase(SelectFolders(folders.value, Listed(s, listable)), s, env) else s;
    if Enabled(pattern) then FilePhase(SelectFiles(pattern.value, Listed(afterFolders, listable)), afterFolders, env)
    else afterFolders
  }

  /** The folders a run selects. */
  function FoldersSelected(folders: Option<FilterDict>, s: State, listable: bool): seq<Node> {
    if Enabled(folders) then SelectFolders(folders.value, Listed(s, listable)) else []
  }

  /** The files a run selects, as judged on the listing it starts from. */
  function FilesSelected(pattern: Option<FilterDict>, s: State, listable: bool): seq<Node> {
    if Enabled(pattern) then SelectFiles(pattern.value, Listed(s, listable)) else []
  }

  /** How many of `xs` have a name free in `dest` that the filesystem refuses. */
  function Failures(xs: seq<Node>, dest: map<string, Node>, faultOf: string -> IoFault): nat
    decreases |xs|
  {
    if xs == [] then 0
    else
      var x := xs[|xs| - 1];
      Failures(xs[..|xs| - 1], dest, faultOf) + (if x.name !in dest && faultOf(x.name) != NoFault then 1 else 0)
  }

  /**
   * What holds from any state `s` to any later state `t` of a run: names
   * already at the destination keep their entries, the source only loses
   * entries, a copy leaves the source as it was, and a dry run changes
   * neither side and records no error.
   */
  predicate Conserved(s: State, t: State, copyMode: bool, dryRun: bool) {
    && (forall n :: n in s.dest ==> n in t.dest && t.dest[n] == s.dest[n])
    && (forall x :: x in t.entries ==> x in s.entries)
    && (copyMode ==> t.entries == s.entries)
    && (dryRun ==> t.entries == s.entries && t.dest == s.dest && t.stats.errors == s.stats.errors)
  }

  /**
   * One processed item keeps what a run keeps and counts exactly one
   * outcome; it records no error when the filesystem does not refuse its
   * name, and moving a folder leaves the files of the source alone.
   */
  lemma StepConserves(s: State, x: Node, isFolder: bool, copyMode: bool, dryRun: bool, fault: IoFault)
    ensures var t := Step(s, x, isFolder, copyMode, dryRun, fault);
      && Conserved(s, t, copyMode, dryRun)
      && Outcomes(t.stats) == Outcomes(s.stats) + 1
      && t.stats.matched == s.stats.matched && t.stats.foldersMatched == s.stats.foldersMatched
      && (fault == NoFault ==> t.stats.errors == s.stats.errors)
      && (x.Dir? ==> FilesAmong(t.entries) == FilesAmong(s.entries))
  {
    forall y | y in Without(s.entries, x)
      ensures y in s.entries
    {
      WithoutMembers(s.entries, x, y);
    }
    if x.Dir? {
      WithoutDirKeepsFiles(s.entries, x);
    }
  }

  /**
   * A whole phase keeps what a run keeps and counts one outcome per
   * selected item; it records no error when the filesystem refuses none of
   * their names, and a phase over folders leaves the files of the source
   * alone.
   */
  lemma {:induction false} StepsConserve(s: State, xs: seq<Node>, isFolder: bool, env: Env)
    ensures var t := Steps(s, xs, isFolder, env);
      && Conserved(s, t, env.copyMode, env.dryRun)
      && Outcomes(t.stats) == Outcomes(s.stats) + |xs|
      && t.stats.matched == s.stats.matched && t.stats.foldersMatched == s.stats.foldersMatched
      && ((forall x :: x in xs ==> env.faultOf(x.name) == NoFault) ==> t.stats.errors == s.stats.errors)
      && ((forall x :: x in xs ==> x.Dir?) ==> FilesAmong(t.entries) == FilesAmong(s.entries))
  {
    if xs != [] {
      var init, x := xs[..|xs| - 1], xs[|xs| - 1];
      assert xs == init + [x];
      StepsConserve(s, init, isFolder, env);
      StepConserves(Steps(s, init, isFolder, env), x, isFolder, env.copyMode, env.dryRun, env.faultOf(x.name));
    }
  }

  /**
   * A name no item of the phase carries, or one the phase cannot migrate
   * (a dry run, or a name the filesystem refuses), is in the destination
   * after the phase exactly when it was before, with the same entry.
   */
  lemma {:induction false} StepsLeaveName(s: State, xs: seq<Node>, isFolder: bool, env: Env, n: string)
    requires env.dryRun || env.faultOf(n) != NoFault || forall x :: x in xs ==> x.name != n
    ensures var t := Steps(s, xs, isFolder, env);
      (n in t.dest <==> n in s.dest) && (n in s.dest ==> t.dest[n] == s.dest[n])
  {
    if xs != [] {
      var init := xs[..|xs| - 1];
      assert xs == init + [xs[|xs| - 1]];
      StepsLeaveName(s, init, isFolder, env, n);
    }
  }

  /**
   * A phase records one error per item whose name is free at the
   * destination when the phase starts and which the filesystem refuses, and
   * none in a dry run. A refused name never reaches the destination, so
   * whether it is free does not change during the phase.
   */
  lemma {:induction false} StepsErrors(s: State, xs: seq<Node>, isFolder: bool, env: Env)
    ensures Steps(s, xs, isFolder, env).stats.errors
            == s.stats.errors + (if env.dryRun then 0 else Failures(xs, s.dest, env.faultOf))
  {
    if xs != [] {
      var init, x := xs[..|xs| - 1], xs[|xs| - 1];
      StepsErrors(s, init, isFolder, env);
      if env.faultOf(x.name) != NoFault {
        StepsLeaveName(s, init, isFolder, env, x.name);
      }
    }
  }

  /**
   * A selected item whose name is free at the start, which no other item of
   * the phase shares, and which the filesystem accepts, ends the phase at
   * the destination under its name; a move also leaves it out of the source.
   */
  lemma {:induction false} StepsPlace(s: State, xs: seq<Node>, isFolder: bool, env: Env, x: Node)
    requires x in xs && forall y :: y in xs && y.name == x.name ==> y == x
    requires x.name !in s.dest && !env.dryRun && env.faultOf(x.name) == NoFault
    ensures var t := Steps(s, xs, isFolder, env);
      x.name in t.dest && t.dest[x.name] == x && (!env.copyMode ==> x !in t.entries)
  {
    var init, last := xs[..|xs| - 1], xs[|xs| - 1];
    assert xs == init + [last];
    var u := Steps(s, init, isFolder, env);
    if x in init {
      StepsPlace(s, init, isFolder, env, x);
      if !env.copyMode {
        WithoutMembers(u.entries, last, x);
      }
    } else {
      StepsLeaveName(s, init, isFolder, env, x.name);
      WithoutMembers(u.entries, x, x);
    }
  }

  /** Two destinations that agree on which refused names are taken give the same failure count. */
  lemma {:induction false} FailuresWhereRefused(xs: seq<Node>, d1: map<string, Node>, d0: map<string, Node>,
                                                faultOf: string -> IoFault)
    requires forall n :: faultOf(n) != NoFault ==> (n in d1 <==> n in d0)
    ensures Failures(xs, d1, faultOf) == Failures(xs, d0, faultOf)
  {
    if xs != [] {
      FailuresWhereRefused(xs[..|xs| - 1], d1, d0, faultOf);
    }
  }

  /** Some item is counted as a failure exactly when one has a free name that the filesystem refuses. */
  lemma {:induction false} FailuresPositive(xs: seq<Node>, dest: map<string, Node>, faultOf: string -> IoFault)
    ensures Failures(xs, dest, faultOf) > 0
            <==> exists x :: x in xs && x.name !in dest && faultOf(x.name) != NoFault
  {
    if xs != [] {
      var init, x := xs[..|xs| - 1], xs[|xs| - 1];
      assert xs == init + [x];
      FailuresPositive(init, dest, faultOf);
    }
  }

  /** Processing one more item of a selection is one more step. */
  lemma StepsPrefix(s: State, xs: seq<Node>, i: nat, isFolder: bool, env: Env)
    requires i < |xs|
    ensures Steps(s, xs[..i + 1], isFolder, env)
            == Step(Steps(s, xs[..i], isFolder, env), xs[i], isFolder, env.copyMode, env.dryRun, env.faultOf(xs[i].name))
  {
    assert xs[..i + 1][..i] == xs[..i];
  }

  /** The folder phase is the fold of `Step` from the state whose `folders_matched` counter already counts the selection. */
  lemma FolderPhaseSteps(found: seq<Node>, s: State, start: State, env: Env)
    requires start == s.(stats := s.stats.(foldersMatched := s.stats.foldersMatched + |found|))
    ensures FolderPhase(found, s, env) == Steps(start, found, true, env)
  {
  }

  /**
   * The folder phase counts its selection in `folders_matched`, one outcome
   * per selected folder and nothing in `matched`; it keeps what a run
   * keeps, leaves the files of the source alone, and records no error when
   * the filesystem refuses no name.
   */
  lemma FolderPhaseFacts(found: seq<Node>, s: State, env: Env)
    requires forall x :: x in found ==> x.Dir?
    ensures var t := FolderPhase(found, s, env);
      && t.stats.foldersMatched == s.stats.foldersMatched + |found|
      && t.stats.matched == s.stats.matched
      && Outcomes(t.stats) == Outcomes(s.stats) + |found|
      && Conserved(s, t, env.copyMode, env.dryRun)
      && FilesAmong(t.entries) == FilesAmong(s.entries)
      && ((forall n :: env.faultOf(n) == NoFault) ==> t.stats.errors == s.stats.errors)
  {
    StepsConserve(s.(stats := s.stats.(foldersMatched := s.stats.foldersMatched + |found|)), found, true, env);
  }

  /** The file phase is the fold of `Step` from the state whose `matched` counter already counts the selection. */
  lemma FilePhaseSteps(files: seq<Node>, s: State, start: State, env: Env)
    requires start == s.(stats := s.stats.(matched := s.stats.matched + |files|))
    ensures FilePhase(files, s, env) == Steps(start, files, false, env)
  {
  }

  /**
   * The file phase counts its selection in `matched`, one outcome per
   * selected file and nothing in `folders_matched`; it keeps what a run
   * keeps and records no error when the filesystem refuses no name.
   */
  lemma FilePhaseFacts(files: seq<Node>, s: State, env: Env)
    ensures var t := FilePhase(files, s, env);
      && t.stats.matched == s.stats.matched + |files|
      && t.stats.foldersMatched == s.stats.foldersMatched
      && Outcomes(t.stats) == Outcomes(s.stats) + |files|
      && Conserved(s, t, env.copyMode, env.dryRun)
      && ((forall n :: env.faultOf(n) == NoFault) ==> t.stats.errors == s.stats.errors)
  {
    StepsConserve(s.(stats := s.stats.(matched := s.stats.matched + |files|)), files, false, env);
  }

  /** Every folder a folder filter selects is a directory of the listing. */
  lemma SelectedFolders(spec: FilterDict, es: seq<Node>)
    ensures forall x :: x in SelectFolders(spec, es) ==> x in es && x.Dir?
  {
    forall x | x in SelectFolders(spec, es)
      ensures x in es && x.Dir?
    {
      SelectFoldersMembers(spec, es, x);
    }
  }

  /** Every file a file filter selects is a file of the listing. */
  lemma SelectedFiles(spec: FilterDict, es: seq<Node>)
    ensures forall x :: x in SelectFiles(spec, es) ==> x in es && x.File?
  {
    forall x | x in SelectFiles(spec, es)
      ensures x in es && x.File?
    {
      SelectFilesMembers(spec, es, x);
    }
  }

  /** A phase over folders leaves the files of the source alone, so a file selection after it is the one before it. */
  lemma FolderPhaseKeepsFileSelection(found: seq<Node>, fileSpec: FilterDict, s: State, listable: bool, env: Env)
    requires forall x :: x in found ==> x.Dir?
    ensures SelectFiles(fileSpec, Listed(FolderPhase(found, s, env), listable)) == SelectFiles(fileSpec, Listed(s, listable))
  {
    var t := FolderPhase(found, s, env);
    FolderPhaseFacts(found, s, env);
    if listable {
      SelectFilesOnlySeesFiles(fileSpec, s.entries);
      SelectFilesOnlySeesFiles(fileSpec, t.entries);
    }
  }

  /** A phase's errors, and the names it cannot have migrated: a refused name keeps its place, or its absence, at the destination. */
  lemma PhaseErrors(xs: seq<Node>, s: State, isFolder: bool, env: Env)
    ensures var t := if isFolder then FolderPhase(xs, s, env) else FilePhase(xs, s, env);
      && t.stats.errors == s.stats.errors + (if env.dryRun then 0 else Failures(xs, s.dest, env.faultOf))
      && forall n :: env.faultOf(n) != NoFault ==> (n in t.dest <==> n in s.dest)
  {
    var s0 := if isFolder then s.(stats := s.stats.(foldersMatched := s.stats.foldersMatched + |xs|))
              else s.(stats := s.stats.(matched := s.stats.matched + |xs|));
    StepsErrors(s0, xs, isFolder, env);
    forall n | env.faultOf(n) != NoFault
      ensures n in Steps(s0, xs, isFolder, env).dest <==> n in s.dest
    {
      StepsLeaveName(s0, xs, isFolder, env, n);
    }
  }

  /**
   * A run records one error per selected folder and per selected file whose
   * name is free at the destination when the run starts and which the
   * filesystem refuses, and none in a dry run.
   */
  lemma RunErrors(pattern: Option<FilterDict>, folders: Option<FilterDict>, listable: bool, s: State, env: Env)
    ensures RunOf(pattern, folders, listable, s, env).stats.errors
            == s.stats.errors
               + (if env.dryRun then 0
                  else Failures(FoldersSelected(folders, s, listable), s.dest, env.faultOf)
                       + Failures(FilesSelected(pattern, s, listable), s.dest, env.faultOf))
  {
    var found := FoldersSelected(folders, s, listable);
    var s1 := if Enabled(folders) then FolderPhase(found, s, env) else s;
    if Enabled(folders) {
      PhaseErrors(found, s, true, env);
    }
    if Enabled(pattern) {
      if Enabled(folders) {
        SelectedFolders(folders.value, Listed(s, listable));
        FolderPhaseKeepsFileSelection(found, pattern.value, s, listable, env);
      }
      var files := SelectFiles(pattern.value, Listed(s1, listable));
      PhaseErrors(files, s1, false, env);
      FailuresWhereRefused(files, s1.dest, s.dest, env.faultOf);
    }
  }

  /**
   * A run counts each folder it selects in `folders_matched` and each file
   * it selects in `matched`, where the files are selected from the listing
   * as it was before the folder phase.
   */
  lemma RunCounts(pattern: Option<FilterDict>, folders: Option<FilterDict>, listable: bool, s: State, env: Env)
    ensures RunOf(pattern, folders, listable, s, env).stats.foldersMatched
            == s.stats.foldersMatched + |FoldersSelected(folders, s, listable)|
    ensures RunOf(pattern, folders, listable, s, env).stats.matched
            == s.stats.matched + |FilesSelected(pattern, s, listable)|
  {
    var found := FoldersSelected(folders, s, listable);
    var s1 := if Enabled(folders) then FolderPhase(found, s, env) else s;
    if Enabled(folders) {
      SelectedFolders(folders.value, Listed(s, listable));
      FolderPhaseFacts(found, s, env);
    }
    if Enabled(pattern) {
      if Enabled(folders) {
        FolderPhaseKeepsFileSelection(found, pattern.value, s, listable, env);
      }
      FilePhaseFacts(SelectFiles(pattern.value, Listed(s1, listable)), s1, env);
    }
  }

  /** Some folder or file the run selects has a name free at the destination that the filesystem refuses. */
  predicate MeetsRefusal(pattern: Option<FilterDict>, folders: Option<FilterDict>, listable: bool, s: State, env: Env) {
    exists x :: x in FoldersSelected(folders, s, listable) + FilesSelected(pattern, s, listable)
                && x.name !in s.dest && env.faultOf(x.name) != NoFault
  }

  /** A run records an error exactly when it is real and some selected item has a free name that the filesystem refuses. */
  lemma RunFails(pattern: Option<FilterDict>, folders: Option<FilterDict>, listable: bool, s: State, env: Env)
    ensures RunOf(pattern, folders, listable, s, env).stats.errors > s.stats.errors
            <==> !env.dryRun && MeetsRefusal(pattern, folders, listable, s, env)
  {
    var xs := FoldersSelected(folders, s, listable);
    var ys := FilesSelected(pattern, s, listable);
    RunErrors(pattern, folders, listable, s, env);
    FailuresPositive(xs, s.dest, env.faultOf);
    FailuresPositive(ys, s.dest, env.faultOf);
    FailuresPositive(xs + ys, s.dest, env.faultOf);
  }

  /**
   * A selected item whose name is free at the destination, which no other
   * entry of the source shares, and which the filesystem accepts, ends a
   * real run at the destination under its name; a move also takes it out of
   * the source.
   */
  lemma RunPlaces(pattern: Option<FilterDict>, folders: Option<FilterDict>, listable: bool, s: State, env: Env, x: Node)
    requires x in FoldersSelected(folders, s, listable) || x in FilesSelected(pattern, s, listable)
    requires forall y :: y in s.entries && y.name == x.name ==> y == x
    requires x.name !in s.dest && !env.dryRun && env.faultOf(x.name) == NoFault
    ensures var t := RunOf(pattern, folders, listable, s, env);
      x.name in t.dest && t.dest[x.name] == x && (!env.copyMode ==> x !in t.entries)
  {
    if x in FoldersSelected(folders, s, listable) {
      RunPlacesFolder(pattern, folders, listable, s, env, x);
    } else {
      RunPlacesFile(pattern, folders, listable, s, env, x);
    }
  }

  /** `RunPlaces` for a selected folder: the folder phase places it and the file phase, which selects only files, leaves it. */
  lemma RunPlacesFolder(pattern: Option<FilterDict>, folders: Option<FilterDict>, listable: bool, s: State, env: Env, x: Node)
    requires x in FoldersSelected(folders, s, listable)
    requires forall y :: y in s.entries && y.name == x.name ==> y == x
    requires x.name !in s.dest && !env.dryRun && env.faultOf(x.name) == NoFault
    ensures var t := RunOf(pattern, folders, listable, s, env);
      x.name in t.dest && t.dest[x.name] == x && (!env.copyMode ==> x !in t.entries)
  {
    var found := FoldersSelected(folders, s, listable);
    SelectedFolders(folders.value, Listed(s, listable));
    FolderPhasePlaces(found, s, env, x);
    if Enabled(pattern) {
      var s1 := FolderPhase(found, s, env);
      var files := SelectFiles(pattern.value, Listed(s1, listable));
      FolderPhaseKeepsFileSelection(found, pattern.value, s, listable, env);
      SelectedFiles(pattern.value, Listed(s, listable));
      FilePhasePlaces(files, s1, env, x);
    }
  }

  /** `RunPlaces` for a selected file: the folder phase, which selects only directories, leaves its name free and the file phase places it. */
  lemma RunPlacesFile(pattern: Option<FilterDict>, folders: Option<FilterDict>, listable: bool, s: State, env: Env, x: Node)
    requires x in FilesSelected(pattern, s, listable)
    requires forall y :: y in s.entries && y.name == x.name ==> y == x
    requires x.name !in s.dest && !env.dryRun && env.faultOf(x.name) == NoFault
    ensures var t := RunOf(pattern, folders, listable, s, env);
      x.name in t.dest && t.dest[x.name] == x && (!env.copyMode ==> x !in t.entries)
  {
    var found := FoldersSelected(folders, s, listable);
    var s1 := if Enabled(folders) then FolderPhase(found, s, env) else s;
    var files := SelectFiles(pattern.value, Listed(s1, listable));
    SelectFilesMembers(pattern.value, Listed(s, listable), x);
    assert x.File? && x in s.entries;
    FolderPhaseSparesFile(pattern, folders, listable, s, env, x);
    assert forall y :: y in files && y.name == x.name ==> y == x by {
      SelectedFiles(pattern.value, Listed(s, listable));
    }
    FilePhasePlaces(files, s1, env, x);
    assert RunOf(pattern, folders, listable, s, env) == FilePhase(files, s1, env);
  }

  /** The folder phase, which selects only directories, neither takes a selected file's name nor changes the file selection. */
  lemma FolderPhaseSparesFile(pattern: Option<FilterDict>, folders: Option<FilterDict>, listable: bool, s: State, env: Env, x: Node)
    requires x.File? && x in s.entries
    requires forall y :: y in s.entries && y.name == x.name ==> y == x
    requires x.name !in s.dest && Enabled(pattern)
    ensures var s1 := if Enabled(folders) then FolderPhase(FoldersSelected(folders, s, listable), s, env) else s;
      x.name !in s1.dest && SelectFiles(pattern.value, Listed(s1, listable)) == SelectFiles(pattern.value, Listed(s, listable))
  {
    if Enabled(folders) {
      var found := FoldersSelected(folders, s, listable);
      SelectedFolders(folders.value, Listed(s, listable));
      assert forall y :: y in found ==> y.name != x.name;
      var s0 := s.(stats := s.stats.(foldersMatched := s.stats.foldersMatched + |found|));
      StepsLeaveName(s0, found, true, env, x.name);
      assert FolderPhase(found, s, env) == Steps(s0, found, true, env);
      FolderPhaseKeepsFileSelection(found, pattern.value, s, listable, env);
    }
  }

  /** A folder the folder phase places keeps its place, and stays out of the source, whatever the file phase does. */
  lemma FolderPhasePlaces(found: seq<Node>, s: State, env: Env, x: Node)
    requires x in found && forall y :: y in found && y.name == x.name ==> y == x
    requires x.name !in s.dest && !env.dryRun && env.faultOf(x.name) == NoFault
    ensures var t := FolderPhase(found, s, env);
      x.name in t.dest && t.dest[x.name] == x && (!env.copyMode ==> x !in t.entries)
  {
    StepsPlace(s.(stats := s.stats.(foldersMatched := s.stats.foldersMatched + |found|)), found, true, env, x);
  }

  /**
   * The file phase places a selected file whose name is free and unshared;
   * an entry already placed under a name no selected file carries keeps
   * its place, and one already out of the source stays out.
   */
  lemma FilePhasePlaces(files: seq<Node>, s: State, env: Env, x: Node)
    requires forall y :: y in files && y.name == x.name ==> y == x
    requires x in files ==> x.name !in s.dest && !env.dryRun && env.faultOf(x.name) == NoFault
    requires x !in files ==> x.name in s.dest && s.dest[x.name] == x && (!env.copyMode ==> x !in s.entries)
    ensures var t := FilePhase(files, s, env);
      x.name in t.dest && t.dest[x.name] == x && (!env.copyMode ==> x !in t.entries)
  {
    var s2 := s.(stats := s.stats.(matched := s.stats.matched + |files|));
    if x in files {
      StepsPlace(s2, files, false, env, x);
    } else {
      StepsLeaveName(s2, files, false, env, x.name);
      StepsConserve(s2, files, false, env);
    }
  }

  /** A phase over one item is one step. */
  lemma StepsOfOne(s: State, xs: seq<Node>, isFolder: bool, env: Env)
    requires |xs| == 1
    ensures Steps(s, xs, isFolder, env) == Step(s, xs[0], isFolder, env.copyMode, env.dryRun, env.faultOf(xs[0].name))
  {
    assert xs[..0] == [];
  }

  /** A file-only run whose selection is one file, into an empty destination, moves or copies that file alone. */
  lemma FileRunOfOne(spec: FilterDict, es: seq<Node>, x: Node, env: Env)
    requires spec.NonEmpty() && SelectFiles(spec, es) == [x]
    requires !env.dryRun && env.faultOf(x.name) == NoFault
    ensures RunOf(Some(spec), None, true, State(es, map[], NoStats), env)
            == State(if env.copyMode then es else Without(es, x), map[x.name := x], Stats(1, 1, 0, 0, 0, 0))
  {
    var s := State(es, map[], NoStats);
    var files := SelectFiles(spec, es);
    var s2 := s.(stats := s.stats.(matched := s.stats.matched + 1));
    assert RunOf(Some(spec), None, true, s, env) == FilePhase(files, s, env);
    StepsOfOne(s2, files, false, env);
    var o := OutcomeOf(x.name in s2.dest, env.dryRun, env.faultOf(x.name));
    assert o == Migrated;
    assert Tally(s2.stats, o, false) == Stats(1, 1, 0, 0, 0, 0);
    assert s2.dest[x.name := x] == map[x.name := x];
  }

  /**
   * The worked example end to end: with folders off, moving the files that
   * end in `_1` and have type `.pdf` out of a source holding `report_1.pdf`
   * (2 MB), `report_2.txt` (1 MB) and a folder, into an empty destination,
   * moves `report_1.pdf` alone: one file matched, one processed, nothing
   * else counted, the other two entries left in the source.
   */
  lemma ExampleRun(spec: FilterDict, report1: Node, report2: Node, archive: Node, env: Env)
    requires IsExampleFileSpec(spec)
    requires report1 == File("report_1.pdf", 2 * BytesPerMB, true)
    requires report2 == File("report_2.txt", BytesPerMB, true)
    requires archive.Dir?
    requires !env.copyMode && !env.dryRun && env.faultOf(report1.name) == NoFault
    ensures RunOf(Some(spec), None, true, State([report1, report2, archive], map[], NoStats), env)
            == State([report2, archive], map[report1.name := report1], Stats(1, 1, 0, 0, 0, 0))
  {
    ExampleFileSelection(spec, report1, report2, archive);
    FileRunOfOne(spec, [report1, report2, archive], report1, env);
    assert report1 != report2 by { assert report1.size != report2.size; }
    WithoutOfThree(report1, report2, archive);
  }

  /** Taking the first of three distinct entries out of a listing leaves the other two in order. */
  lemma WithoutOfThree(x: Node, y: Node, z: Node)
    requires x != y && x != z
    ensures Without([x, y, z], x) == [y, z]
  {
    assert [z][1..] == [];
    assert Without([z], x) == [z] + Without([], x) == [z];
    assert [y, z][1..] == [z];
    assert Without([y, z], x) == [y] + Without([z], x) == [y, z];
    assert [x, y, z][1..] == [y, z];
    assert Without([x, y, z], x) == [] + Without([y, z], x);
  }

  /** What the source path is: missing, something other than a directory, or a directory that may or may not be listable. */
  datatype SourceKind = Absent | NotADirectory | Directory(listable: bool)

  /**
   * The organizer. The four settings are fixed at construction; the source
   * listing, the destination and the counters change as items are migrated.
   */
  class FileOrganizer {

    const pattern: Option<FilterDict>
    const folders: Option<FilterDict>
    const copyMode: bool
    const dryRun: bool
    const sourceKind: SourceKind

    /** The entries of the source directory, in listing order. */
    var entries: seq<Node>
    /** The entries of the destination directory, by name; empty while it does not exist. */
    var dest: map<string, Node>
    var stats: Stats

    /** The constructor: normalise the two settings and zero the counters. */
    constructor (pattern: Setting, folders: Setting, copyMode: bool, dryRun: bool,
                 sourceKind: SourceKind, entries: seq<Node>, dest: map<string, Node>)
      ensures this.pattern == FilePatternOf(pattern)
      ensures this.folders == FolderFilterOf(folders)
      ensures this.copyMode == copyMode && this.dryRun == dryRun
      ensures this.sourceKind == sourceKind && this.entries == entries && this.dest == dest
      ensures stats == Stats(0, 0, 0, 0, 0, 0)
    {
      this.pattern := FilePatternOf(pattern);
      this.folders := FolderFilterOf(folders);
      this.copyMode := copyMode;
      this.dryRun := dryRun;
      this.sourceKind := sourceKind;
      this.entries := entries;
      this.dest := dest;
      stats := NoStats;
    }

    /** The source must exist and be a directory. */
    method ValidatePaths() returns (ok: bool)
      ensures ok <==> sourceKind.Directory?
    {
      match sourceKind
      case Absent => ok := false;
      case NotADirectory => ok := false;
      case Directory(_) => ok := true;
    }

    /** The entries an enumeration sees: none when the source cannot be listed. */
    function Listing(): seq<Node>
      reads this
    {
      Listed(Now(), sourceKind == Directory(true))
    }

    /** The part of the organizer a run changes. */
    function Now(): State
      reads this
    {
      State(entries, dest, stats)
    }

    /** How this organizer treats its items, given how the filesystem answers. */
    function EnvOf(faultOf: string -> IoFault): Env {
      Env(copyMode, dryRun, faultOf)
    }

    /**
     * `matches_pattern`: the name, type and size tests in that order, each
     * returning `False` at the first failure.
     */
    method MatchesPattern(f: Node) returns (m: bool)
      requires pattern.Some? && f.File?
      ensures m == FileMatches(pattern.value, f)
    {
      var spec := pattern.value;
      var parts := SplitExt(f.name);
      var stem, ext := parts.0, parts.1;
      var namePattern := spec.namePattern.Get();
      if namePattern.Some? {
        var ok := AnyPatternMatches(AsList(namePattern.value), stem, false);
        if !ok {
          return false;
        }
      }
      var fileType := spec.fileType.Get();
      if fileType.Some? {
        var ok := AnyTypeMatches(ext, NormaliseTypes(AsList(fileType.value)));
        if !ok {
          return false;
        }
      }
      if !f.statOk {
        return false;
      }
      var mb := SizeMB(f.size);
      var minMB, maxMB := spec.minSizeMB.Get(), spec.maxSizeMB.Get();
      if minMB.Some? && mb < minMB.value {
        return false;
      }
      if maxMB.Some? && mb > maxMB.value {
        return false;
      }
      return true;
    }

    /**
     * `matches_folder_pattern`: the name test on the whole folder name, then
     * the scan for a file of one of the types, then the folder size.
     */
    method MatchesFolderPattern(d: Node) returns (m: bool)
      requires folders.Some? && d.Dir?
      ensures m == FolderMatches(folders.value, d)
    {
      var spec := folders.value;
      var namePattern := spec.namePattern.Get();
      if namePattern.Some? {
        var ok := AnyPatternMatches(AsList(namePattern.value), d.name, true);
        if !ok {
          return false;
        }
      }
      var fileType := spec.fileType.Get();
      if fileType.Some? {
        var ok := FolderContainsType(d, NormaliseTypes(AsList(fileType.value)));
        if !ok {
          return false;
        }
      }
      var mb := FolderSizeMB(d);
      var minMB, maxMB := spec.minSizeMB.Get(), spec.maxSizeMB.Get();
      if minMB.Some? && mb < minMB.value {
        return false;
      }
      if maxMB.Some? && mb > maxMB.value {
        return false;
      }
      return true;
    }

    /**
     * `get_matching_files`: the files of the listing that pass, in order,
     * each counted once in `matched`.
     */
    method GetMatchingFiles() returns (files: seq<Node>)
      requires pattern.Some?
      modifies this`stats
      ensures files == SelectFiles(pattern.value, Listing())
      ensures forall f :: f in files ==> f in Listing() && f.File?
      ensures stats == old(stats).(matched := old(stats).matched + |files|)
    {
      var listing := Listing();
      files := [];
      for i := 0 to |listing|
        invariant files == SelectFiles(pattern.value, listing[..i])
        invariant stats == old(stats).(matched := old(stats).matched + |files|)
      {
        var item := listing[i];
        assert listing[..i + 1][..i] == listing[..i];
        if item.File? {
          var ok := MatchesPattern(item);
          if ok {
            files := files + [item];
            stats := stats.(matched := stats.matched + 1);
          }
        }
      }
      assert listing[..|listing|] == listing;
      SelectedFiles(pattern.value, listing);
    }

    /**
     * `get_folders_to_migrate`: nothing without a folder filter, otherwise the
     * directories of the listing that pass, in order, each counted once in
     * `folders_matched`.
     */
    method GetFoldersToMigrate() returns (found: seq<Node>)
      modifies this`stats
      ensures folders.None? ==> found == []
      ensures folders.Some? ==> found == SelectFolders(folders.value, Listing())
      ensures forall d :: d in found ==> d in Listing() && d.Dir?
      ensures stats == old(stats).(foldersMatched := old(stats).foldersMatched + |found|)
    {
      found := [];
      if folders.None? {
        return;
      }
      var listing := Listing();
      for i := 0 to |listing|
        invariant found == SelectFolders(folders.value, listing[..i])
        invariant stats == old(stats).(foldersMatched := old(stats).foldersMatched + |found|)
      {
        var item := listing[i];
        assert listing[..i + 1][..i] == listing[..i];
        if item.Dir? {
          var ok := MatchesFolderPattern(item);
          if ok {
            found := found + [item];
            stats := stats.(foldersMatched := stats.foldersMatched + 1);
          }
        }
      }
      assert listing[..|listing|] == listing;
      SelectedFolders(folders.value, listing);
    }

    /**
     * What processing one item guarantees, whatever its outcome: what a run
     * keeps (see `Conserved`), no error without a fault, and exactly one
     * outcome counted.
     */
    twostate predicate ItemStep(fault: IoFault)
      reads this
    {
      && Conserved(old(Now()), Now(), copyMode, dryRun)
      && (fault == NoFault ==> stats.errors == old(stats.errors))
      && Outcomes(stats) == Outcomes(old(stats)) + 1
      && stats.matched == old(stats.matched) && stats.foldersMatched == old(stats.foldersMatched)
    }

    /**
     * `process_file`: skip a name the destination already has, preview under
     * a dry run, otherwise copy or move the file, counting a fault as an
     * error. Only a migration changes the filesystem, and only a move
     * removes the file from the source.
     */
    method ProcessFile(f: Node, fault: IoFault) returns (ok: bool)
      requires f.File?
      modifies this`entries, this`dest, this`stats
      ensures var o := OutcomeOf(f.name in old(dest), dryRun, fault);
        && ok == (o == Migrated || o == Previewed)
        && stats == Tally(old(stats), o, false)
        && dest == (if o == Migrated then old(dest)[f.name := f] else old(dest))
        && entries == (if o == Migrated && !copyMode then Without(old(entries), f) else old(entries))
      ensures Now() == Step(old(Now()), f, false, copyMode, dryRun, fault)
      ensures ItemStep(fault)
    {
      StepConserves(Now(), f, false, copyMode, dryRun, fault);
      if f.name in dest {
        stats := stats.(skipped := stats.skipped + 1);
        return false;
      }
      if dryRun {
        stats := stats.(processed := stats.processed + 1);
        return true;
      }
      if fault != NoFault {
        stats := stats.(errors := stats.errors + 1);
        return false;
      }
      dest := dest[f.name := f];
      if !copyMode {
        entries := Without(entries, f);
      }
      stats := stats.(processed := stats.processed + 1);
      return true;
    }

    /**
     * `process_folder`: the same state machine for a whole directory tree,
     * counted in `folders_migrated` on success or preview.
     */
    method ProcessFolder(d: Node, fault: IoFault) returns (ok: bool)
      requires d.Dir?
      modifies this`entries, this`dest, this`stats
      ensures var o := OutcomeOf(d.name in old(dest), dryRun, fault);
        && ok == (o == Migrated || o == Previewed)
        && stats == Tally(old(stats), o, true)
        && dest == (if o == Migrated then old(dest)[d.name := d] else old(dest))
        && entries == (if o == Migrated && !copyMode then Without(old(entries), d) else old(entries))
      ensures Now() == Step(old(Now()), d, true, copyMode, dryRun, fault)
      ensures ItemStep(fault)
      ensures FilesAmong(entries) == FilesAmong(old(entries))
    {
      StepConserves(Now(), d, true, copyMode, dryRun, fault);
      if d.name in dest {
        stats := stats.(skipped := stats.skipped + 1);
        return false;
      }
      if dryRun {
        stats := stats.(foldersMigrated := stats.foldersMigrated + 1);
        return true;
      }
      if fault != NoFault {
        stats := stats.(errors := stats.errors + 1);
        return false;
      }
      dest := dest[d.name := d];
      if !copyMode {
        entries := Without(entries, d);
      }
      stats := stats.(foldersMigrated := stats.foldersMigrated + 1);
      return true;
    }

    /**
     * What every phase of a run promises, from its start to its end: what a
     * run keeps (see `Conserved`), and every item selected reaches exactly
     * one outcome.
     */
    twostate predicate Conserves()
      reads this
    {
      && Conserved(old(Now()), Now(), copyMode, dryRun)
      && Matches(stats) >= Matches(old(stats))
      && Outcomes(stats) - Outcomes(old(stats)) == Matches(stats) - Matches(old(stats))
    }

    /** The loop of the folder phase: process the selected folders one after another, which folds `Step` over them. */
    method ProcessFoldersInTurn(found: seq<Node>, faultOf: string -> IoFault)
      requires forall d :: d in found ==> d.Dir?
      modifies this`entries, this`dest, this`stats
      ensures Now() == Steps(old(Now()), found, true, EnvOf(faultOf))
    {
      ghost var start := Now();
      for i := 0 to |found|
        invariant Now() == Steps(start, found[..i], true, EnvOf(faultOf))
      {
        var d := found[i];
        StepsPrefix(start, found, i, true, EnvOf(faultOf));
        var _ := ProcessFolder(d, faultOf(d.name));
      }
      assert found[..|found|] == found;
    }

    /** The loop of the file phase: process the selected files one after another, which folds `Step` over them. */
    method ProcessFilesInTurn(files: seq<Node>, faultOf: string -> IoFault)
      requires forall f :: f in files ==> f.File?
      modifies this`entries, this`dest, this`stats
      ensures Now() == Steps(old(Now()), files, false, EnvOf(faultOf))
    {
      ghost var start := Now();
      for i := 0 to |files|
        invariant Now() == Steps(start, files[..i], false, EnvOf(faultOf))
      {
        var f := files[i];
        StepsPrefix(start, files, i, false, EnvOf(faultOf));
        var _ := ProcessFile(f, faultOf(f.name));
      }
      assert files[..|files|] == files;
    }

    /**
     * The folder phase of `organize`: select the folders, then process each
     * in turn; `faultOf` says how the filesystem treats each name.
     */
    method MigrateFolders(faultOf: string -> IoFault) returns (ghost found: seq<Node>)
      requires folders.Some?
      modifies this`entries, this`dest, this`stats
      ensures found == SelectFolders(folders.value, old(Listing()))
      ensures Now() == FolderPhase(found, old(Now()), EnvOf(faultOf))
      ensures stats.foldersMatched == old(stats.foldersMatched) + |found|
      ensures stats.matched == old(stats.matched)
      ensures FilesAmong(entries) == FilesAmong(old(entries))
      ensures (forall n :: faultOf(n) == NoFault) ==> stats.errors == old(stats.errors)
      ensures Conserves()
    {
      var selected := GetFoldersToMigrate();
      found := selected;
      ghost var initial := old(Now());
      ghost var start := initial.(stats := initial.stats.(foldersMatched := initial.stats.foldersMatched + |selected|));
      assert Now() == start;
      ProcessFoldersInTurn(selected, faultOf);
      FolderPhaseSteps(selected, initial, start, EnvOf(faultOf));
      FolderPhaseFacts(selected, old(Now()), EnvOf(faultOf));
    }

    /**
     * The file phase of `organize`: select the files, then process each in
     * turn.
     */
    method MigrateFiles(faultOf: string -> IoFault) returns (ghost files: seq<Node>)
      requires pattern.Some?
      modifies this`entries, this`dest, this`stats
      ensures files == SelectFiles(pattern.value, old(Listing()))
      ensures Now() == FilePhase(files, old(Now()), EnvOf(faultOf))
      ensures stats.matched == old(stats.matched) + |files|
      ensures stats.foldersMatched == old(stats.foldersMatched)
      ensures (forall n :: faultOf(n) == NoFault) ==> stats.errors == old(stats.errors)
      ensures Conserves()
    {
      var selected := GetMatchingFiles();
      files := selected;
      ghost var initial := old(Now());
      ghost var start := initial.(stats := initial.stats.(matched := initial.stats.matched + |selected|));
      assert Now() == start;
      ProcessFilesInTurn(selected, faultOf);
      FilePhaseSteps(selected, initial, start, EnvOf(faultOf));
      FilePhaseFacts(selected, old(Now()), EnvOf(faultOf));
    }

    /**
     * The criteria display at the start of `organize` reads the file pattern
     * whenever folder migration is off, so without a file pattern the run
     * raises before it has done anything.
     */
    predicate DisplayRaises() {
      !Enabled(folders) && pattern.None?
    }

    /**
     * `organize`: validate the source, then run the folder phase if folder
     * migration is on, then the file phase if file migration is on, and
     * return the counters. `None` stands for the exception the display
     * raises. An invalid source returns the counters untouched.
     */
    method Organize(faultOf: string -> IoFault) returns (result: Option<Stats>)
      modifies this`entries, this`dest, this`stats
      ensures result.None? <==> DisplayRaises()
      ensures result.Some? ==> result.value == stats
      ensures result.Some? && sourceKind.Directory? ==>
                Now() == RunOf(pattern, folders, sourceKind == Directory(true), old(Now()), EnvOf(faultOf))
      ensures result.None? || !sourceKind.Directory? ==>
                entries == old(entries) && dest == old(dest) && stats == old(stats)
      ensures Conserves()
      ensures (forall n :: faultOf(n) == NoFault) ==> stats.errors == old(stats.errors)
    {
      if DisplayRaises() {
        return None;
      }
      var valid := ValidatePaths();
      if !valid {
        return Some(stats);
      }
      if Enabled(folders) {
        ghost var _ := MigrateFolders(faultOf);
      }
      if Enabled(pattern) {
        SelectFilesOnlySeesFiles(pattern.value, old(Listing()));
        SelectFilesOnlySeesFiles(pattern.value, Listing());
        ghost var _ := MigrateFiles(faultOf);
      }
      return Some(stats);
    }
  }
}
