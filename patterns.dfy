/**
 * The name-pattern matcher: the if/elif chain that `matches_pattern` runs
 * against a file's stem and `matches_folder_pattern` against a folder's name,
 * and the OR across a list of patterns.
 */
module Patterns {

  import opened Strings

  /**
   * One pattern against one name. The forms are tried in this order:
   * `^X$` exact, `^X` prefix, `X$` suffix, `*X*` substring, and otherwise a
   * suffix test, which for folders is written as "equal or ends with".
   * Every test is a literal, case-sensitive string operation.
   */
  predicate MatchName(p: string, name: string, isFolder: bool) {
    if StartsWith(p, "^") && EndsWith(p, "$") then name == Inner(p)
    else if StartsWith(p, "^") then StartsWith(name, DropFirst(p))
    else if EndsWith(p, "$") then EndsWith(name, DropLast(p))
    else if StartsWith(p, "*") && EndsWith(p, "*") then Contains(name, Inner(p))
    else if isFolder then name == p || EndsWith(name, p)
    else EndsWith(name, p)
  }

  /** A pattern that starts with `^` and ends with `$` is only ever an exact test. */
  lemma ExactForm(p: string, name: string, isFolder: bool)
    requires StartsWith(p, "^") && EndsWith(p, "$")
    ensures |p| >= 2
    ensures MatchName(p, name, isFolder) <==> name == p[1..|p| - 1]
  {
    assert p[0] == p[..1][0] == '^';
    assert p[|p| - 1] == p[|p| - 1..][0] == '$';
  }

  /** `^X` without a closing `$` is a prefix test on `X`, whatever follows. */
  lemma PrefixForm(p: string, name: string, isFolder: bool)
    requires StartsWith(p, "^") && !EndsWith(p, "$")
    ensures MatchName(p, name, isFolder) <==> StartsWith(name, p[1..])
  {
  }

  /** `X$` without a leading `^` is a suffix test on `X`. */
  lemma SuffixForm(p: string, name: string, isFolder: bool)
    requires !StartsWith(p, "^") && EndsWith(p, "$")
    ensures MatchName(p, name, isFolder) <==> EndsWith(name, p[..|p| - 1])
  {
  }

  /** `*X*` (not caught by the earlier forms) is a substring test on `X`; a lone `*` has an empty `X`. */
  lemma SubstringForm(p: string, name: string, isFolder: bool)
    requires !StartsWith(p, "^") && !EndsWith(p, "$")
    requires StartsWith(p, "*") && EndsWith(p, "*")
    ensures MatchName(p, name, isFolder) <==> Contains(name, if |p| >= 2 then p[1..|p| - 1] else [])
  {
  }

  /** Any other pattern is a suffix test, for files and for folders alike. */
  lemma DefaultForm(p: string, name: string, isFolder: bool)
    requires !StartsWith(p, "^") && !EndsWith(p, "$")
    requires !(StartsWith(p, "*") && EndsWith(p, "*"))
    ensures MatchName(p, name, isFolder) <==> EndsWith(name, p)
  {
  }

  /**
   * The folder default "equal or ends with" never differs from the file
   * default "ends with", because a name equal to the pattern ends with it:
   * the matcher gives the same answer for files and folders.
   */
  lemma FolderAndFileAgree(p: string, name: string)
    ensures MatchName(p, name, true) == MatchName(p, name, false)
  {
    if name == p {
      assert name[|name| - |p|..] == p;
    }
  }

  /** `^` is a prefix test on the empty string. */
  lemma CaretMatchesAll(name: string, isFolder: bool)
    ensures MatchName("^", name, isFolder)
  {
    var p := "^";
    assert StartsWith(p, "^");
    assert !EndsWith(p, "$") by { assert p[0] == '^'; }
    assert DropFirst(p) == p[1..] == [];
    assert StartsWith(name, []);
  }

  /** `$` is a suffix test on the empty string. */
  lemma DollarMatchesAll(name: string, isFolder: bool)
    ensures MatchName("$", name, isFolder)
  {
    assert !StartsWith("$", "^") by { assert "$"[0] == '$'; }
    assert DropLast("$") == [];
    assert name[|name|..] == [];
  }

  /** `*` is a substring test on the empty string. */
  lemma StarMatchesAll(name: string, isFolder: bool)
    ensures MatchName("*", name, isFolder)
  {
    assert !StartsWith("*", "^") && !EndsWith("*", "$") by { assert "*"[0] == '*'; }
    assert Inner("*") == [];
    assert OccursAt(name, [], 0);
  }

  /** The degenerate patterns `^`, `$`, `*` and the empty pattern strip to nothing and accept every name. */
  lemma DegeneratePatternsMatchAll(name: string, isFolder: bool)
    ensures MatchName("^", name, isFolder)
    ensures MatchName("$", name, isFolder)
    ensures MatchName("*", name, isFolder)
    ensures MatchName("", name, isFolder)
  {
    CaretMatchesAll(name, isFolder);
    DollarMatchesAll(name, isFolder);
    StarMatchesAll(name, isFolder);
    assert name[|name|..] == [];
  }

  /** `^$` accepts the empty name and nothing else. */
  lemma CaretDollarMatchesOnlyEmpty(name: string, isFolder: bool)
    ensures MatchName("^$", name, isFolder) <==> name == []
  {
  }

  /** The OR across a pattern list: some pattern of the list accepts the name. */
  predicate AnyNameMatches(patterns: seq<string>, name: string, isFolder: bool) {
    exists i :: 0 <= i < |patterns| && MatchName(patterns[i], name, isFolder)
  }

  /** A list accepts a name iff one of its two halves does; in particular `[A, B]` means "A or B". */
  lemma AnyNameMatchesAppend(a: seq<string>, b: seq<string>, name: string, isFolder: bool)
    ensures AnyNameMatches(a + b, name, isFolder)
        <==> AnyNameMatches(a, name, isFolder) || AnyNameMatches(b, name, isFolder)
  {
    if AnyNameMatches(a + b, name, isFolder) {
      var i :| 0 <= i < |a + b| && MatchName((a + b)[i], name, isFolder);
      if i >= |a| {
        assert b[i - |a|] == (a + b)[i];
      }
    }
    if AnyNameMatches(a, name, isFolder) {
      var j :| 0 <= j < |a| && MatchName(a[j], name, isFolder);
      assert (a + b)[j] == a[j];
    }
    if AnyNameMatches(b, name, isFolder) {
      var j :| 0 <= j < |b| && MatchName(b[j], name, isFolder);
      assert (a + b)[|a| + j] == b[j];
    }
  }

  /**
   * The pattern loop of `matches_pattern` / `matches_folder_pattern`: try the
   * patterns in order, stop at the first that accepts.
   */
  method AnyPatternMatches(patterns: seq<string>, name: string, isFolder: bool) returns (matched: bool)
    ensures matched == AnyNameMatches(patterns, name, isFolder)
  {
    for i := 0 to |patterns|
      invariant !AnyNameMatches(patterns[..i], name, isFolder)
    {
      if MatchName(patterns[i], name, isFolder) {
        return true;
      }
      assert patterns[..i + 1] == patterns[..i] + [patterns[i]];
      AnyNameMatchesAppend(patterns[..i], [patterns[i]], name, isFolder);
    }
    assert patterns[..|patterns|] == patterns;
    return false;
  }
}
