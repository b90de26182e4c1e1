/**
 * The filter dictionaries (`pattern` for files, `folders_to_migrate` for
 * folders) and the three axes they constrain: name, type and size.
 */
module Criteria {

  import opened Wrappers
  import opened Strings
  import opened Patterns

  /** A setting that holds one string or a list of strings (`"x"` or `["x", "y"]`). */
  datatype OneOrMany = One(s: string) | Many(xs: seq<string>)

  /** `[v] if isinstance(v, str) else v` */
  function AsList(v: OneOrMany): seq<string> {
    match v
    case One(s) => [s]
    case Many(xs) => xs
  }

  /** One key of a filter dictionary: absent, present with value `None`, or present with a value. */
  datatype Entry<+T> = Missing | Null | Val(v: T) {

    /** `d.get(key)`: an absent key and a `None` value look the same. */
    function Get(): Option<T> {
      if Val? then Some(v) else None
    }

    predicate Present() {
      !Missing?
    }
  }

  /**
   * A filter dictionary. The organizer reads four keys; `otherKeys` counts any
   * further keys, which it never reads but which make the dictionary non-empty.
   */
  datatype FilterDict = FilterDict(
    namePattern: Entry<OneOrMany>,
    fileType: Entry<OneOrMany>,
    minSizeMB: Entry<real>,
    maxSizeMB: Entry<real>,
    otherKeys: nat)
  {
    /** Python's truth value of a dictionary: it has at least one key. */
    predicate NonEmpty() {
      namePattern.Present() || fileType.Present() || minSizeMB.Present() || maxSizeMB.Present()
      || otherKeys > 0
    }
  }

  /** `{"name_pattern": v}` */
  function NameOnly(v: OneOrMany): FilterDict {
    FilterDict(Val(v), Missing, Missing, Missing, 0)
  }

  // ---------------------------------------------------------------- name axis

  /** The name axis: no setting imposes nothing, otherwise some pattern must accept the name. */
  predicate NameAxis(setting: Option<OneOrMany>, name: string, isFolder: bool) {
    setting.None? || AnyNameMatches(AsList(setting.value), name, isFolder)
  }

  /** An empty pattern list accepts nothing, unlike an absent one. */
  lemma EmptyPatternListMatchesNothing(name: string, isFolder: bool)
    ensures !NameAxis(Some(Many([])), name, isFolder)
    ensures NameAxis(None, name, isFolder)
  {
  }

  /** A single pattern string behaves exactly as the one-element list holding it. */
  lemma OnePatternIsSingletonList(p: string, name: string, isFolder: bool)
    ensures NameAxis(Some(One(p)), name, isFolder) == NameAxis(Some(Many([p])), name, isFolder)
    ensures NameAxis(Some(One(p)), name, isFolder) == MatchName(p, name, isFolder)
  {
    assert AsList(One(p))[0] == p;
  }

  // ---------------------------------------------------------------- type axis

  /** `"." + t if not t.startswith(".") else t` */
  function NormaliseType(t: string): (r: string)
    ensures StartsWith(r, ".")
    ensures StartsWith(t, ".") ==> r == t
    ensures EndsWith(r, t) && |r| <= |t| + 1
  {
    if StartsWith(t, ".") then t else "." + t
  }

  /** Normalising twice is normalising once. */
  lemma NormaliseTypeIdempotent(t: string)
    ensures NormaliseType(NormaliseType(t)) == NormaliseType(t)
  {
  }

  function NormaliseTypes(ts: seq<string>): seq<string> {
    seq(|ts|, i requires 0 <= i < |ts| => NormaliseType(ts[i]))
  }

  /** `ext.lower() == t.lower()` for some `t` of the list. */
  predicate ExtMatches(ext: string, types: seq<string>) {
    exists i :: 0 <= i < |types| && Lower(ext) == Lower(types[i])
  }

  /** The type axis of a file: no setting imposes nothing, otherwise its extension must be one of the normalised types. */
  predicate TypeAxis(setting: Option<OneOrMany>, ext: string) {
    setting.None? || ExtMatches(ext, NormaliseTypes(AsList(setting.value)))
  }

  /** An empty type list accepts no extension, unlike an absent one. */
  lemma EmptyTypeListMatchesNothing(ext: string)
    ensures !TypeAxis(Some(Many([])), ext)
    ensures TypeAxis(None, ext)
  {
  }

  /** An empty extension never passes a type filter, since every normalised type starts with a dot. */
  lemma NoExtensionNeverMatches(ts: seq<string>)
    ensures !ExtMatches([], NormaliseTypes(ts))
  {
    var types := NormaliseTypes(ts);
    forall i | 0 <= i < |types|
      ensures Lower([]) != Lower(types[i])
    {
      assert |Lower(types[i])| == |types[i]| >= 1;
    }
  }

  /** Case is ignored: `.JPG` passes `[".pdf", ".jpg"]`, and also `"jpg"` written without its dot. */
  lemma UpperCaseExtensionMatches()
    ensures TypeAxis(Some(Many([".pdf", ".jpg"])), ".JPG")
    ensures TypeAxis(Some(One("jpg")), ".JPG")
    ensures !TypeAxis(Some(Many([".pdf", ".jpg"])), ".PNG")
  {
    assert Lower(".JPG") == ".jpg" == Lower(".jpg");
    var listed := NormaliseTypes(AsList(Many([".pdf", ".jpg"])));
    assert listed == [".pdf", ".jpg"];
    assert Lower(".JPG") == Lower(listed[1]);
    assert !StartsWith("jpg", ".") by { assert "jpg"[..1][0] == 'j'; }
    assert NormaliseType("jpg") == ".jpg";
    var single := NormaliseTypes(AsList(One("jpg")));
    assert single == [".jpg"];
    assert Lower(".JPG") == Lower(single[0]);
    assert Lower(".PNG") == ".png";
    assert Lower(".pdf") == ".pdf";
  }

  /**
   * The type loop of `matches_pattern` and the `any(...)` of
   * `matches_folder_pattern`: compare the extension with each type in turn,
   * ignoring case, and stop at the first equal one.
   */
  method AnyTypeMatches(ext: string, types: seq<string>) returns (matched: bool)
    ensures matched == ExtMatches(ext, types)
  {
    matched := false;
    var i := 0;
    while i < |types|
      invariant 0 <= i <= |types|
      invariant !matched
      invariant forall k :: 0 <= k < i ==> Lower(ext) != Lower(types[k])
    {
      if Lower(ext) == Lower(types[i]) {
        matched := true;
        break;
      }
      i := i + 1;
    }
  }

  // ---------------------------------------------------------------- size axis

  const BytesPerMB: nat := 1024 * 1024

  /** `st_size / (1024 * 1024)`, computed exactly. */
  function SizeMB(bytes: nat): real {
    bytes as real / BytesPerMB as real
  }

  /** The size axis: below the minimum or above the maximum is rejected; an absent bound imposes nothing. */
  predicate SizeAxis(mb: real, minMB: Option<real>, maxMB: Option<real>) {
    !(minMB.Some? && mb < minMB.value) && !(maxMB.Some? && mb > maxMB.value)
  }

  /** Both bounds are inclusive. */
  lemma SizeBoundsInclusive(mb: real, lo: real, hi: real)
    ensures SizeAxis(mb, Some(lo), Some(hi)) <==> lo <= mb <= hi
    ensures SizeAxis(lo, Some(lo), None) && SizeAxis(hi, None, Some(hi))
  {
  }

  /** Inverted bounds reject every size. */
  lemma InvertedBoundsRejectAll(mb: real, lo: real, hi: real)
    requires lo > hi
    ensures !SizeAxis(mb, Some(lo), Some(hi))
  {
  }

  /** Sizes add up in megabytes as they do in bytes. */
  lemma SizeMBAdd(a: nat, b: nat)
    ensures SizeMB(a) + SizeMB(b) == SizeMB(a + b)
  {
  }
}
