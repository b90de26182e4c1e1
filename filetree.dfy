/**
 * A directory tree, the order in which `os.walk` visits it, and the two facts
 * `matches_folder_pattern` derives from a walk: whether the folder contains a
 * file of a given type, and its total size.
 */
module FileTree {

  import opened Strings
  import opened Criteria

  /**
   * An entry of the filesystem. `statOk` says whether `stat()` on the file
   * succeeds; `listable` whether the directory's entries can be listed.
   */
  datatype Node =
    | File(name: string, size: nat, statOk: bool)
    | Dir(name: string, children: seq<Node>, listable: bool)

  /** The non-directory entries among `cs`, in listing order: the `files` of one walk step. */
  function FilesAmong(cs: seq<Node>): seq<Node> {
    if cs == [] then []
    else (if cs[0].File? then [cs[0]] else []) + FilesAmong(cs[1..])
  }

  /**
   * `os.walk(n)` top-down, one step per directory it lists, each step holding
   * that directory's files; subdirectories follow in listing order. A directory
   * that cannot be listed yields nothing, as `os.walk` ignores the error.
   */
  function Walk(n: Node): seq<seq<Node>> {
    match n
    case File(_, _, _) => []
    case Dir(_, cs, listable) => if listable then [FilesAmong(cs)] + WalkAll(cs) else []
  }

  function WalkAll(cs: seq<Node>): seq<seq<Node>> {
    if cs == [] then [] else Walk(cs[0]) + WalkAll(cs[1..])
  }

  function Flatten(steps: seq<seq<Node>>): seq<Node> {
    if steps == [] then [] else steps[0] + Flatten(steps[1..])
  }

  lemma {:induction false} FlattenAppend(a: seq<seq<Node>>, b: seq<seq<Node>>)
    ensures Flatten(a + b) == Flatten(a) + Flatten(b)
  {
    if a == [] {
      assert a + b == b;
    } else {
      assert (a + b)[1..] == a[1..] + b;
      FlattenAppend(a[1..], b);
    }
  }

  /** Walking one more step appends that step's files. */
  lemma FlattenPrefixStep(steps: seq<seq<Node>>, i: nat)
    requires i < |steps|
    ensures Flatten(steps[..i + 1]) == Flatten(steps[..i]) + steps[i]
  {
    assert steps[..i + 1] == steps[..i] + [steps[i]];
    FlattenAppend(steps[..i], [steps[i]]);
    assert Flatten([steps[i]]) == steps[i] + Flatten([]);
  }

  // ------------------------------------------------------- size of a folder

  /** The bytes a walk step adds up: the sizes of the entries whose `stat()` succeeds. */
  function SumReadable(fs: seq<Node>): nat {
    if fs == [] then 0
    else (if fs[0].File? && fs[0].statOk then fs[0].size else 0) + SumReadable(fs[1..])
  }

  lemma {:induction false} SumReadableAppend(a: seq<Node>, b: seq<Node>)
    ensures SumReadable(a + b) == SumReadable(a) + SumReadable(b)
  {
    if a == [] {
      assert a + b == b;
    } else {
      assert (a + b)[1..] == a[1..] + b;
      SumReadableAppend(a[1..], b);
    }
  }

  /** Adding one more entry of a step adds its readable bytes. */
  lemma SumReadablePrefixStep(fs: seq<Node>, j: nat)
    requires j < |fs|
    ensures SumReadable(fs[..j + 1])
         == SumReadable(fs[..j]) + (if fs[j].File? && fs[j].statOk then fs[j].size else 0)
  {
    assert fs[..j + 1] == fs[..j] + [fs[j]];
    SumReadableAppend(fs[..j], [fs[j]]);
  }

  /** Reference definition: the readable bytes under `n`, counting nothing below a directory that cannot be listed. */
  function ReadableBytes(n: Node): nat {
    match n
    case File(_, size, statOk) => if statOk then size else 0
    case Dir(_, cs, listable) => if listable then ReadableBytesAll(cs) else 0
  }

  function ReadableBytesAll(cs: seq<Node>): nat {
    if cs == [] then 0 else ReadableBytes(cs[0]) + ReadableBytesAll(cs[1..])
  }

  /** Every byte stored under `n`, readable or not. */
  function AllBytes(n: Node): nat {
    match n
    case File(_, size, _) => size
    case Dir(_, cs, _) => AllBytesAll(cs)
  }

  function AllBytesAll(cs: seq<Node>): nat {
    if cs == [] then 0 else AllBytes(cs[0]) + AllBytesAll(cs[1..])
  }

  /** The total a walk finds never exceeds what is stored: unreadable files add 0, not an error. */
  lemma {:induction false} ReadableWithinAll(n: Node)
    ensures ReadableBytes(n) <= AllBytes(n)
  {
    match n
    case File(_, _, _) =>
    case Dir(_, cs, _) => ReadableWithinAllList(cs);
  }

  lemma {:induction false} ReadableWithinAllList(cs: seq<Node>)
    ensures ReadableBytesAll(cs) <= AllBytesAll(cs)
  {
    if cs != [] {
      ReadableWithinAll(cs[0]);
      ReadableWithinAllList(cs[1..]);
    }
  }

  /** The files a walk of directory `n` visits add up to the reference total. */
  lemma {:induction false} WalkSize(n: Node)
    requires n.Dir?
    ensures SumReadable(Flatten(Walk(n))) == ReadableBytes(n)
  {
    if n.listable {
      var cs := n.children;
      assert Walk(n) == [FilesAmong(cs)] + WalkAll(cs);
      FlattenAppend([FilesAmong(cs)], WalkAll(cs));
      assert Flatten([FilesAmong(cs)]) == FilesAmong(cs) + Flatten([]);
      SumReadableAppend(FilesAmong(cs), Flatten(WalkAll(cs)));
      WalkAllSize(cs);
    }
  }

  lemma {:induction false} WalkAllSize(cs: seq<Node>)
    ensures SumReadable(FilesAmong(cs)) + SumReadable(Flatten(WalkAll(cs))) == ReadableBytesAll(cs)
  {
    if cs != [] {
      var c, rest := cs[0], cs[1..];
      var head := if c.File? then [c] else [];
      assert FilesAmong(cs) == head + FilesAmong(rest);
      SumReadableAppend(head, FilesAmong(rest));
      assert WalkAll(cs) == Walk(c) + WalkAll(rest);
      FlattenAppend(Walk(c), WalkAll(rest));
      SumReadableAppend(Flatten(Walk(c)), Flatten(WalkAll(rest)));
      WalkAllSize(rest);
      if c.Dir? {
        WalkSize(c);
      } else {
        assert SumReadable(head) == ReadableBytes(c);
      }
    }
  }

  /**
   * The size loop of `matches_folder_pattern`: walk the folder and add up the
   * size, in megabytes, of every file whose `stat()` succeeds, skipping the
   * others. The result is the folder's readable bytes in megabytes.
   */
  method FolderSizeMB(folder: Node) returns (mb: real)
    requires folder.Dir?
    ensures mb == SizeMB(ReadableBytes(folder))
  {
    var steps := Walk(folder);
    mb := 0.0;
    ghost var bytes: nat := 0;
    for i := 0 to |steps|
      invariant bytes == SumReadable(Flatten(steps[..i]))
      invariant mb == SizeMB(bytes)
    {
      var files := steps[i];
      for j := 0 to |files|
        invariant bytes == SumReadable(Flatten(steps[..i])) + SumReadable(files[..j])
        invariant mb == SizeMB(bytes)
      {
        SumReadablePrefixStep(files, j);
        if files[j].File? && files[j].statOk {
          SizeMBAdd(bytes, files[j].size);
          mb := mb + SizeMB(files[j].size);
          bytes := bytes + files[j].size;
        }
      }
      assert files[..|files|] == files;
      FlattenPrefixStep(steps, i);
      SumReadableAppend(Flatten(steps[..i]), files);
    }
    assert steps[..|steps|] == steps;
    WalkSize(folder);
  }

  // ---------------------------------------------- folder contains a file type

  /** Some entry of `fs` has an extension among `types` (case ignored). */
  predicate AnyOfType(fs: seq<Node>, types: seq<string>) {
    exists i :: 0 <= i < |fs| && ExtMatches(SplitExt(fs[i].name).1, types)
  }

  lemma AnyOfTypeAppend(a: seq<Node>, b: seq<Node>, types: seq<string>)
    ensures AnyOfType(a + b, types) <==> AnyOfType(a, types) || AnyOfType(b, types)
  {
    if AnyOfType(a + b, types) {
      var i :| 0 <= i < |a + b| && ExtMatches(SplitExt((a + b)[i].name).1, types);
      if i >= |a| {
        assert (a + b)[i] == b[i - |a|];
      } else {
        assert (a + b)[i] == a[i];
      }
    }
    if AnyOfType(a, types) {
      var i :| 0 <= i < |a| && ExtMatches(SplitExt(a[i].name).1, types);
      assert (a + b)[i] == a[i];
    }
    if AnyOfType(b, types) {
      var i :| 0 <= i < |b| && ExtMatches(SplitExt(b[i].name).1, types);
      assert (a + b)[|a| + i] == b[i];
    }
  }

  /** Reference definition: a file of the given types lies somewhere in the listable part of the subtree. */
  predicate HasFileOfType(n: Node, types: seq<string>) {
    match n
    case File(name, _, _) => ExtMatches(SplitExt(name).1, types)
    case Dir(_, cs, listable) => listable && SomeHasFileOfType(cs, types)
  }

  predicate SomeHasFileOfType(cs: seq<Node>, types: seq<string>) {
    cs != [] && (HasFileOfType(cs[0], types) || SomeHasFileOfType(cs[1..], types))
  }

  /** The files a walk of directory `n` visits include one of the types exactly when the subtree holds one. */
  lemma {:induction false} WalkFindsType(n: Node, types: seq<string>)
    requires n.Dir?
    ensures AnyOfType(Flatten(Walk(n)), types) <==> HasFileOfType(n, types)
  {
    if n.listable {
      var cs := n.children;
      FlattenAppend([FilesAmong(cs)], WalkAll(cs));
      assert Flatten([FilesAmong(cs)]) == FilesAmong(cs) + Flatten([]);
      AnyOfTypeAppend(FilesAmong(cs), Flatten(WalkAll(cs)), types);
      WalkAllFindsType(cs, types);
    } else {
      assert Walk(n) == [];
    }
  }

  lemma {:induction false} WalkAllFindsType(cs: seq<Node>, types: seq<string>)
    ensures AnyOfType(FilesAmong(cs), types) || AnyOfType(Flatten(WalkAll(cs)), types)
        <==> SomeHasFileOfType(cs, types)
  {
    if cs == [] {
      assert FilesAmong(cs) == [] && Flatten(WalkAll(cs)) == [];
    } else {
      var c, rest := cs[0], cs[1..];
      var head := if c.File? then [c] else [];
      assert FilesAmong(cs) == head + FilesAmong(rest);
      AnyOfTypeAppend(head, FilesAmong(rest), types);
      assert WalkAll(cs) == Walk(c) + WalkAll(rest);
      FlattenAppend(Walk(c), WalkAll(rest));
      AnyOfTypeAppend(Flatten(Walk(c)), Flatten(WalkAll(rest)), types);
      WalkAllFindsType(rest, types);
      if c.Dir? {
        WalkFindsType(c, types);
        assert !AnyOfType(head, types);
      } else {
        assert Walk(c) == [] && Flatten([]) == [];
        assert AnyOfType(head, types) <==> HasFileOfType(c, types) by {
          if HasFileOfType(c, types) {
            assert head[0] == c;
          }
        }
      }
    }
  }

  /** Looking at one more entry of a step. */
  lemma AnyOfTypePrefixStep(fs: seq<Node>, j: nat, types: seq<string>)
    requires j < |fs|
    ensures AnyOfType(fs[..j + 1], types)
        <==> AnyOfType(fs[..j], types) || ExtMatches(SplitExt(fs[j].name).1, types)
  {
    assert fs[..j + 1] == fs[..j] + [fs[j]];
    AnyOfTypeAppend(fs[..j], [fs[j]], types);
    assert [fs[j]][0] == fs[j];
  }

  /** What a prefix of the entries contains, all of them contain. */
  lemma AnyOfTypePrefix(fs: seq<Node>, j: nat, types: seq<string>)
    requires j <= |fs|
    ensures AnyOfType(fs[..j], types) ==> AnyOfType(fs, types)
  {
    assert fs[..j] + fs[j..] == fs;
    AnyOfTypeAppend(fs[..j], fs[j..], types);
  }

  /** What the first steps of a walk contain, the whole walk contains. */
  lemma AnyOfTypeStepsPrefix(steps: seq<seq<Node>>, i: nat, types: seq<string>)
    requires i <= |steps|
    ensures AnyOfType(Flatten(steps[..i]), types) ==> AnyOfType(Flatten(steps), types)
  {
    assert steps[..i] + steps[i..] == steps;
    FlattenAppend(steps[..i], steps[i..]);
    AnyOfTypeAppend(Flatten(steps[..i]), Flatten(steps[i..]), types);
  }

  /**
   * The type scan of `matches_folder_pattern`: walk the folder, lower-case
   * each file's extension and stop at the first that equals one of the
   * (already normalised) types.
   */
  method FolderContainsType(folder: Node, types: seq<string>) returns (found: bool)
    requires folder.Dir?
    ensures found == HasFileOfType(folder, types)
  {
    var steps := Walk(folder);
    found := false;
    var i := 0;
    while i < |steps|
      invariant 0 <= i <= |steps|
      invariant !found ==> !AnyOfType(Flatten(steps[..i]), types)
      invariant found ==> AnyOfType(Flatten(steps), types)
    {
      var files := steps[i];
      var j := 0;
      while j < |files|
        invariant 0 <= j <= |files|
        invariant !found ==> !AnyOfType(files[..j], types)
        invariant found ==> AnyOfType(files, types)
      {
        var fileExt := Lower(SplitExt(files[j].name).1);
        LowerIdempotent(SplitExt(files[j].name).1);
        found := AnyTypeMatches(fileExt, types);
        AnyOfTypePrefixStep(files, j, types);
        if found {
          AnyOfTypePrefix(files, j + 1, types);
          break;
        }
        j := j + 1;
      }
      FlattenPrefixStep(steps, i);
      AnyOfTypeAppend(Flatten(steps[..i]), files, types);
      if found {
        AnyOfTypeStepsPrefix(steps, i + 1, types);
        break;
      }
      assert files[..|files|] == files;
      i := i + 1;
    }
    assert steps[..|steps|] == steps;
    WalkFindsType(folder, types);
  }
}
