/**
 * What `matches_pattern` and `matches_folder_pattern` decide, as functions of
 * the filter dictionary and the entry, and what the two enumerations select
 * from the source directory's entries.
 */
module Filters {

  import opened Wrappers
  import opened Strings
  import opened Criteria
  import opened FileTree

  /**
   * A file passes when its stem passes the name axis, its extension the type
   * axis, its `stat()` succeeds and its size in megabytes the size axis. A
   * failing `stat()` rejects the file even when no size bound is set.
   */
  predicate FileMatches(spec: FilterDict, f: Node)
    requires f.File?
  {
    var parts := SplitExt(f.name);
    && NameAxis(spec.namePattern.Get(), parts.0, false)
    && TypeAxis(spec.fileType.Get(), parts.1)
    && f.statOk
    && SizeAxis(SizeMB(f.size), spec.minSizeMB.Get(), spec.maxSizeMB.Get())
  }

  /** The folder form of the type axis: the subtree holds a file of one of the normalised types. */
  predicate FolderTypeAxis(setting: Option<OneOrMany>, folder: Node) {
    setting.None? || HasFileOfType(folder, NormaliseTypes(AsList(setting.value)))
  }

  /** An empty type list accepts no folder, whatever its subtree holds. */
  lemma EmptyFolderTypeListMatchesNothing(d: Node)
    requires d.Dir?
    ensures !FolderTypeAxis(Some(Many([])), d)
    ensures FolderTypeAxis(None, d)
  {
    assert NormaliseTypes(AsList(Many([]))) == [];
    WalkFindsType(d, []);
  }

  /**
   * A folder passes when its whole name passes the name axis, its subtree
   * holds a file of one of the types, and the readable bytes under it, in
   * megabytes, pass the size axis.
   */
  predicate FolderMatches(spec: FilterDict, d: Node)
    requires d.Dir?
  {
    && NameAxis(spec.namePattern.Get(), d.name, true)
    && FolderTypeAxis(spec.fileType.Get(), d)
    && SizeAxis(SizeMB(ReadableBytes(d)), spec.minSizeMB.Get(), spec.maxSizeMB.Get())
  }

  /** The entries `get_matching_files` keeps: files that pass, in listing order. */
  function SelectFiles(spec: FilterDict, es: seq<Node>): seq<Node> {
    if es == [] then []
    else
      var x := es[|es| - 1];
      SelectFiles(spec, es[..|es| - 1]) + (if x.File? && FileMatches(spec, x) then [x] else [])
  }

  /** The entries `get_folders_to_migrate` keeps: directories that pass, in listing order. */
  function SelectFolders(spec: FilterDict, es: seq<Node>): seq<Node> {
    if es == [] then []
    else
      var x := es[|es| - 1];
      SelectFolders(spec, es[..|es| - 1]) + (if x.Dir? && FolderMatches(spec, x) then [x] else [])
  }

  /** Exactly the files of the listing that pass are selected, and nothing more. */
  lemma {:induction false} SelectFilesMembers(spec: FilterDict, es: seq<Node>, x: Node)
    ensures |SelectFiles(spec, es)| <= |es|
    ensures x in SelectFiles(spec, es) <==> x in es && x.File? && FileMatches(spec, x)
  {
    if es != [] {
      var init := es[..|es| - 1];
      SelectFilesMembers(spec, init, x);
      assert es == init + [es[|es| - 1]];
    }
  }

  /** Exactly the directories of the listing that pass are selected, and nothing more. */
  lemma {:induction false} SelectFoldersMembers(spec: FilterDict, es: seq<Node>, x: Node)
    ensures |SelectFolders(spec, es)| <= |es|
    ensures x in SelectFolders(spec, es) <==> x in es && x.Dir? && FolderMatches(spec, x)
  {
    if es != [] {
      var init := es[..|es| - 1];
      SelectFoldersMembers(spec, init, x);
      assert es == init + [es[|es| - 1]];
    }
  }

  /** No entry is on both lists: one enumeration keeps only files, the other only directories. */
  lemma FileAndFolderListsDisjoint(fileSpec: FilterDict, folderSpec: FilterDict, es: seq<Node>, x: Node)
    ensures !(x in SelectFiles(fileSpec, es) && x in SelectFolders(folderSpec, es))
  {
    SelectFilesMembers(fileSpec, es, x);
    SelectFoldersMembers(folderSpec, es, x);
  }

  lemma {:induction false} FilesAmongAppend(a: seq<Node>, b: seq<Node>)
    ensures FilesAmong(a + b) == FilesAmong(a) + FilesAmong(b)
  {
    if a == [] {
      assert a + b == b;
    } else {
      assert (a + b)[1..] == a[1..] + b;
      FilesAmongAppend(a[1..], b);
    }
  }

  /** One more entry at the end of the listing is selected after the others when it is a file that passes. */
  lemma SelectFilesSnoc(spec: FilterDict, es: seq<Node>, x: Node)
    ensures SelectFiles(spec, es + [x]) == SelectFiles(spec, es) + (if x.File? && FileMatches(spec, x) then [x] else [])
  {
    assert (es + [x])[..|es|] == es;
  }

  /** The step of `SelectFilesOnlySeesFiles`: the last entry keeps the selection equal to the files-only one. */
  lemma SelectFilesOnlySeesFilesStep(spec: FilterDict, es: seq<Node>)
    requires es != []
    requires SelectFiles(spec, es[..|es| - 1]) == SelectFiles(spec, FilesAmong(es[..|es| - 1]))
    ensures SelectFiles(spec, es) == SelectFiles(spec, FilesAmong(es))
  {
    var init, x := es[..|es| - 1], es[|es| - 1];
    assert es == init + [x];
    FilesAmongAppend(init, [x]);
    assert FilesAmong([x]) == (if x.File? then [x] else []) + FilesAmong([]);
    if x.File? {
      SelectFilesSnoc(spec, FilesAmong(init), x);
    } else {
      assert FilesAmong(es) == FilesAmong(init);
    }
  }

  /** The file selection depends on the listing's files alone: directories in between do not matter. */
  lemma {:induction false} SelectFilesOnlySeesFiles(spec: FilterDict, es: seq<Node>)
    ensures SelectFiles(spec, es) == SelectFiles(spec, FilesAmong(es))
  {
    if es != [] {
      SelectFilesOnlySeesFiles(spec, es[..|es| - 1]);
      SelectFilesOnlySeesFilesStep(spec, es);
    }
  }

  /** `_1` is a plain suffix pattern: `report_1` ends with it and `report_2` does not. */
  lemma ExampleNamePattern()
    ensures Patterns.MatchName("_1", "report_1", false)
    ensures !Patterns.MatchName("_1", "report_2", false)
  {
    assert !StartsWith("_1", "^") && !StartsWith("_1", "*") by { assert "_1"[..1][0] == '_'; }
    assert !EndsWith("_1", "$") by { assert "_1"[1..][0] == '1'; }
    assert "report_1"[6..] == "_1";
    assert "report_2"[6..][1] == '2';
  }

  /** The type `.pdf` accepts the extension `.pdf`. */
  lemma ExamplePdfType()
    ensures TypeAxis(Some(One(".pdf")), ".pdf")
  {
    var types := NormaliseTypes(AsList(One(".pdf")));
    assert types[0] == ".pdf";
  }

  /**
   * The file filter of a worked example: names ending in `_1`, of type
   * `.pdf`, applied to a listing of `report_1.pdf` (2 MB), `report_2.txt`
   * (1 MB) and a folder `Archive` holding one 150 MB file.
   */
  predicate IsExampleFileSpec(spec: FilterDict) {
    spec == FilterDict(Val(Many(["_1"])), Val(One(".pdf")), Missing, Missing, 0)
  }

  /** The two file names of the example listing split at their only dot. */
  lemma ExampleNamesSplit(name1: string, name2: string)
    requires name1 == "report_1.pdf" && name2 == "report_2.txt"
    ensures SplitExt(name1) == ("report_1", ".pdf")
    ensures SplitExt(name2) == ("report_2", ".txt")
  {
    SplitAtLastDot(name1, 8, 0);
    assert name1[..8] == "report_1" && name1[8..] == ".pdf";
    SplitAtLastDot(name2, 8, 0);
    assert name2[..8] == "report_2" && name2[8..] == ".txt";
  }

  /** The example filter's name axis accepts the stem `report_1` and rejects `report_2`; its type axis accepts `.pdf`. */
  lemma ExampleAxes(spec: FilterDict)
    requires IsExampleFileSpec(spec)
    ensures NameAxis(spec.namePattern.Get(), "report_1", false)
    ensures !NameAxis(spec.namePattern.Get(), "report_2", false)
    ensures TypeAxis(spec.fileType.Get(), ".pdf")
  {
    ExampleNamePattern();
    ExamplePdfType();
    assert |["_1"]| == 1 && ["_1"][0] == "_1";
  }

  /** `report_1.pdf` (2 MB) ends in `_1` and has type `.pdf`. */
  lemma ExampleReport1Passes(spec: FilterDict, f: Node)
    requires IsExampleFileSpec(spec) && f == File("report_1.pdf", 2 * BytesPerMB, true)
    ensures FileMatches(spec, f)
  {
    ExampleNamesSplit(f.name, "report_2.txt");
    ExampleAxes(spec);
  }

  /** `report_2.txt` (1 MB) does not end in `_1`. */
  lemma ExampleReport2Fails(spec: FilterDict, f: Node)
    requires IsExampleFileSpec(spec) && f == File("report_2.txt", BytesPerMB, true)
    ensures !FileMatches(spec, f)
  {
    ExampleNamesSplit("report_1.pdf", f.name);
    ExampleAxes(spec);
  }

  /** A listing of a passing file, a failing file and a directory selects the passing file alone. */
  lemma SelectFilesOfThree(spec: FilterDict, x: Node, y: Node, z: Node)
    requires x.File? && FileMatches(spec, x)
    requires y.File? && !FileMatches(spec, y)
    requires z.Dir?
    ensures SelectFiles(spec, [x, y, z]) == [x]
  {
    SelectFilesSnoc(spec, [], x);
    assert [] + [x] == [x];
    SelectFilesSnoc(spec, [x], y);
    assert [x] + [y] == [x, y];
    SelectFilesSnoc(spec, [x, y], z);
    assert [x, y] + [z] == [x, y, z];
  }

  /**
   * File selection on the example listing: of `report_1.pdf` (2 MB),
   * `report_2.txt` (1 MB) and a folder, files ending in `_1` of type `.pdf`
   * select `report_1.pdf` alone.
   */
  lemma ExampleFileSelection(spec: FilterDict, report1: Node, report2: Node, archive: Node)
    requires IsExampleFileSpec(spec)
    requires report1 == File("report_1.pdf", 2 * BytesPerMB, true)
    requires report2 == File("report_2.txt", BytesPerMB, true)
    requires archive.Dir?
    ensures SelectFiles(spec, [report1, report2, archive]) == [report1]
  {
    ExampleReport1Passes(spec, report1);
    ExampleReport2Fails(spec, report2);
    SelectFilesOfThree(spec, report1, report2, archive);
  }

  /** A folder holding one readable 150 MB file passes a minimum of 100 MB. */
  lemma ExampleFolderMatches()
    ensures FolderMatches(FilterDict(Null, Null, Val(100.0), Null, 0),
                          Dir("Archive", [File("data.bin", 150 * BytesPerMB, true)], true))
  {
    var cs := [File("data.bin", 150 * BytesPerMB, true)];
    assert cs[1..] == [];
    assert ReadableBytesAll(cs) == ReadableBytes(cs[0]) + ReadableBytesAll(cs[1..]);
    assert ReadableBytesAll(cs) == 150 * BytesPerMB;
    assert SizeMB(150 * BytesPerMB) == 150.0;
  }

  /**
   * Folder selection on the example listing: the folder `Archive` holding
   * one 150 MB file passes a minimum of 100 MB, and the two files beside it
   * are not folders.
   */
  lemma ExampleFolderSelection(report1: Node, report2: Node)
    requires report1.File? && report2.File?
    ensures var archive := Dir("Archive", [File("data.bin", 150 * BytesPerMB, true)], true);
            SelectFolders(FilterDict(Null, Null, Val(100.0), Null, 0), [report1, report2, archive]) == [archive]
  {
    var archive := Dir("Archive", [File("data.bin", 150 * BytesPerMB, true)], true);
    var spec := FilterDict(Null, Null, Val(100.0), Null, 0);
    ExampleFolderMatches();
    var es := [report1, report2, archive];
    assert es[..2] == [report1, report2];
    assert es[..2][..1] == [report1];
    assert [report1][..0] == [];
    assert [report1, report2][..1] == [report1];
    assert SelectFolders(spec, [report1]) == [];
    assert SelectFolders(spec, [report1, report2]) == [];
  }
}
