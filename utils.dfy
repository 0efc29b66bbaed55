/**
 * The helpers of the utils package that the services call: the extension of
 * a file name, a case-insensitive membership test on a list of names, and the
 * keys of a set-like map.
 */
module Utils {
  import opened Text

  // ---------------------------------------------------------------------------
  // GetFileExtension
  // ---------------------------------------------------------------------------

  /**
   * GetFileExtension: "" for an empty name or a name without a dot, otherwise
   * the last dot-separated piece, which is everything after the last dot.
   */
  function GetFileExtension(fileName: string): (ext: string)
    ensures '.' !in ext
    ensures '.' !in fileName ==> ext == []
    ensures '.' in fileName ==>
      |ext| < |fileName| && fileName[|fileName| - |ext| - 1] == '.' && ext == fileName[|fileName| - |ext|..]
  {
    if |fileName| == 0 then []
    else
      var parts := Split(fileName, '.');
      CountPositive(fileName, '.');
      if |parts| < 2 then []
      else
        JoinLast(parts, '.');
        parts[|parts| - 1]
  }

  /** A name that ends in a dot has an empty extension. */
  lemma TrailingDot(fileName: string)
    requires fileName != [] && fileName[|fileName| - 1] == '.'
    ensures GetFileExtension(fileName) == []
  {
    assert fileName[|fileName| - 1] in fileName;
  }

  /** The extension is the text after the last dot, whatever comes before it. */
  lemma ExtensionAfterLastDot(stem: string, ext: string)
    requires '.' !in ext
    ensures GetFileExtension(stem + "." + ext) == ext
  {
    var s := stem + "." + ext;
    assert s[|stem|] == '.';
    assert s[|s| - |ext|..] == ext;
  }

  /** A separator occurs exactly when it is counted. */
  lemma {:induction false} CountPositive(s: string, c: char)
    ensures Count(s, c) > 0 <==> c in s
  {
    if s != [] {
      CountPositive(s[1..], c);
      assert s == [s[0]] + s[1..];
    }
  }

  /** The last of two or more joined pieces is what follows the last separator. */
  lemma {:induction false} JoinLast(parts: seq<string>, sep: char)
    requires |parts| >= 2
    ensures Join(parts, sep) == Join(parts[..|parts| - 1], sep) + [sep] + parts[|parts| - 1]
  {
    if |parts| > 2 {
      JoinLast(parts[1..], sep);
      assert parts[1..][..|parts| - 2] == parts[..|parts| - 1][1..];
    }
  }

  // ---------------------------------------------------------------------------
  // Contains
  // ---------------------------------------------------------------------------

  /**
   * The answer of Contains: some item equals the white-space-trimmed element
   * under case folding. Only the element is trimmed, never the items.
   */
  predicate InList(slice: seq<string>, element: string, fold: char -> char)
  {
    exists i :: 0 <= i < |slice| && EqualFold(slice[i], TrimSpace(element), fold)
  }

  /** Contains: scans the items in order and stops at the first match. */
  method Contains(slice: seq<string>, element: string, fold: char -> char) returns (found: bool)
    ensures found <==> InList(slice, element, fold)
  {
    for i := 0 to |slice|
      invariant forall j :: 0 <= j < i ==> !EqualFold(slice[j], TrimSpace(element), fold)
    {
      if EqualFold(slice[i], TrimSpace(element), fold) {
        return true;
      }
    }
    return false;
  }

  /** Nothing is in an empty list. */
  lemma EmptyList(element: string, fold: char -> char)
    ensures !InList([], element, fold)
  {
  }

  /** The element is trimmed: " x " is found in ["x"]. */
  lemma ElementTrimmed(fold: char -> char)
    ensures InList(["x"], " x ", fold)
  {
    assert LeadingSpaces(" x ") == 1;
    assert " x "[1..] == "x ";
    assert TrailingSpaces("x ") == 1;
    assert TrimSpace(" x ") == "x";
    assert EqualFold(["x"][0], TrimSpace(" x "), fold);
  }

  /** The items are not trimmed: "x" is not found in [" x"]. */
  lemma ItemsUntrimmed(fold: char -> char)
    ensures !InList([" x"], "x", fold)
  {
    TrimSpaceOfTrimmed("x");
  }

  // ---------------------------------------------------------------------------
  // MapKeys
  // ---------------------------------------------------------------------------

  /** Every element at most once. */
  predicate Distinct<T(==)>(s: seq<T>)
  {
    forall i, j :: 0 <= i < j < |s| ==> s[i] != s[j]
  }

  /** `keys` lists the elements of `s`, each once: one iteration order of a Go map with key set `s`. */
  ghost predicate IsOrderOf(keys: seq<string>, s: set<string>)
  {
    Distinct(keys) && forall k :: k in keys <==> k in s
  }

  /** A listing of a set is exactly as long as the set is large. */
  lemma {:induction false} OrderLength(keys: seq<string>, s: set<string>)
    requires IsOrderOf(keys, s)
    ensures |keys| == |s|
  {
    if keys != [] {
      var last := keys[|keys| - 1];
      var init := keys[..|keys| - 1];
      forall k | k in init
        ensures k in s - {last}
      {
        var i :| 0 <= i < |init| && init[i] == k;
        assert keys[i] == k;
      }
      forall k | k in s - {last}
        ensures k in init
      {
        var i :| 0 <= i < |keys| && keys[i] == k;
        assert init[i] == k;
      }
      OrderLength(init, s - {last});
    }
  }

  /** Dropping one key from a listing lists the set without that key. */
  lemma OrderWithout(keys: seq<string>, j: nat, s: set<string>)
    requires IsOrderOf(keys, s) && j < |keys|
    ensures IsOrderOf(keys[..j] + keys[j + 1..], s - {keys[j]})
  {
    var r := keys[..j] + keys[j + 1..];
    forall a | 0 <= a < |r|
      ensures r[a] == keys[if a < j then a else a + 1]
    {
    }
    forall k | k in s - {keys[j]}
      ensures k in r
    {
      var i :| 0 <= i < |keys| && keys[i] == k;
      if i < j { assert r[i] == k; } else { assert r[i - 1] == k; }
    }
  }

  /** Dropping the last key of a listing lists the set without that key. */
  lemma OrderWithoutLast(keys: seq<string>, s: set<string>)
    requires IsOrderOf(keys, s) && keys != []
    ensures IsOrderOf(keys[..|keys| - 1], s - {keys[|keys| - 1]})
  {
    OrderWithout(keys, |keys| - 1, s);
    assert keys[..|keys| - 1] + keys[|keys|..] == keys[..|keys| - 1];
  }

  /** Visiting one more pending key keeps the visited keys a listing of the keys no longer pending. */
  lemma OrderStep(order: seq<string>, s: set<string>, rest: set<string>, k: string)
    requires rest <= s && k in rest
    requires IsOrderOf(order, s - rest)
    ensures IsOrderOf(order + [k], s - (rest - {k}))
  {
  }

  /**
   * MapKeys on a map[string]struct{} (a set): each key exactly once, in the
   * map's iteration order, which Go leaves unspecified and the model leaves
   * open.
   */
  method MapKeys(m: set<string>) returns (keys: seq<string>)
    ensures IsOrderOf(keys, m)
    ensures |keys| == |m|
  {
    keys := [];
    var rest := m;
    while rest != {}
      invariant Distinct(keys)
      invariant forall k :: k in keys <==> k in m && k !in rest
      invariant rest <= m
      invariant |keys| + |rest| == |m|
      decreases |rest|
    {
      var k :| k in rest;
      keys := keys + [k];
      rest := rest - {k};
    }
  }
}
