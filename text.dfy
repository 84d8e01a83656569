/**
 * The .NET string helpers the scanner and the controller rely on:
 * `Path.GetFileName`, ordinal ignore-case `Equals`/`EndsWith`, and
 * `string.IsNullOrWhiteSpace`.
 */
module Text {
  import opened Wrappers

  /** The directory separators `Path.GetFileName` splits on under Windows. */
  predicate IsSeparator(c: char) {
    c == '/' || c == '\\'
  }

  /**
   * `Path.GetFileName`: the text after the last separator, or the whole path
   * when it holds none.
   */
  function FileName(path: string): (name: string)
    ensures |name| <= |path| && name == path[|path| - |name|..]
    ensures forall i :: 0 <= i < |name| ==> !IsSeparator(name[i])
    ensures |name| < |path| ==> IsSeparator(path[|path| - |name| - 1])
    decreases |path|
  {
    if path == [] then ""
    else if IsSeparator(path[|path| - 1]) then ""
    else FileName(path[..|path| - 1]) + [path[|path| - 1]]
  }

  /** A separator followed by a separator-free name: the name is what `FileName` returns. */
  lemma {:induction false} FileNameAfterSeparator(dir: string, name: string)
    requires |dir| > 0 && IsSeparator(dir[|dir| - 1])
    requires forall i :: 0 <= i < |name| ==> !IsSeparator(name[i])
    ensures FileName(dir + name) == name
    decreases |name|
  {
    if name == [] {
      assert dir + name == dir;
    } else {
      var init := name[..|name| - 1];
      assert (dir + name)[..|dir + name| - 1] == dir + init;
      FileNameAfterSeparator(dir, init);
      assert init + [name[|name| - 1]] == name;
    }
  }

  /**
   * Case folding for ordinal ignore-case comparison, restricted to ASCII:
   * upper-case Latin letters map to lower case, everything else to itself.
   */
  function FoldCase(c: char): char {
    if 'A' <= c <= 'Z' then (c as int - 'A' as int + 'a' as int) as char else c
  }

  /** `a.Equals(b, StringComparison.OrdinalIgnoreCase)`, compared character by character. */
  predicate EqualsIgnoreCase(a: string, b: string)
    decreases |a|
  {
    if a == [] || b == [] then a == b
    else FoldCase(a[0]) == FoldCase(b[0]) && EqualsIgnoreCase(a[1..], b[1..])
  }

  /** Equal ignoring case means equal lengths and equal folded characters at every position. */
  lemma {:induction false} EqualsIgnoreCaseAt(a: string, b: string)
    ensures EqualsIgnoreCase(a, b) <==>
      |a| == |b| && forall i :: 0 <= i < |a| ==> FoldCase(a[i]) == FoldCase(b[i])
    decreases |a|
  {
    if a != [] && b != [] {
      EqualsIgnoreCaseAt(a[1..], b[1..]);
      if |a| == |b| && forall i :: 0 <= i < |a| ==> FoldCase(a[i]) == FoldCase(b[i]) {
        assert forall i :: 0 <= i < |a| - 1 ==> a[1..][i] == a[i + 1] && b[1..][i] == b[i + 1];
      }
    }
  }

  /** Every string equals itself ignoring case. */
  lemma {:induction false} EqualsIgnoreCaseReflexive(a: string)
    ensures EqualsIgnoreCase(a, a)
    decreases |a|
  {
    if a != [] {
      EqualsIgnoreCaseReflexive(a[1..]);
    }
  }

  /** Ignore-case equality is symmetric. */
  lemma {:induction false} EqualsIgnoreCaseSymmetric(a: string, b: string)
    requires EqualsIgnoreCase(a, b)
    ensures EqualsIgnoreCase(b, a)
    decreases |a|
  {
    if a != [] && b != [] {
      EqualsIgnoreCaseSymmetric(a[1..], b[1..]);
    }
  }

  /** Ignore-case equality is transitive. */
  lemma {:induction false} EqualsIgnoreCaseTransitive(a: string, b: string, c: string)
    requires EqualsIgnoreCase(a, b) && EqualsIgnoreCase(b, c)
    ensures EqualsIgnoreCase(a, c)
    decreases |a|
  {
    if a != [] && b != [] && c != [] {
      EqualsIgnoreCaseTransitive(a[1..], b[1..], c[1..]);
    }
  }

  /** Strings equal ignoring case agree, ignoring case, on every suffix. */
  lemma EqualsIgnoreCaseSuffix(a: string, b: string, k: nat)
    requires EqualsIgnoreCase(a, b) && k <= |a| && k <= |b|
    ensures EqualsIgnoreCase(a[k..], b[k..])
  {
    EqualsIgnoreCaseAt(a, b);
    EqualsIgnoreCaseAt(a[k..], b[k..]);
    assert forall i :: 0 <= i < |a| - k ==> a[k..][i] == a[k + i] && b[k..][i] == b[k + i];
  }

  /** `s.EndsWith(suffix, StringComparison.OrdinalIgnoreCase)`. */
  predicate EndsWithIgnoreCase(s: string, suffix: string) {
    |suffix| <= |s| && EqualsIgnoreCase(s[|s| - |suffix|..], suffix)
  }

  /** `char.IsWhiteSpace`: the Unicode space, line and paragraph separators plus U+0009..U+000D and U+0085. */
  predicate IsWhiteSpace(c: char) {
    var n := c as int;
    (0x09 <= n <= 0x0D) || n == 0x20 || n == 0x85 || n == 0xA0 || n == 0x1680
    || (0x2000 <= n <= 0x200A) || n == 0x2028 || n == 0x2029 || n == 0x202F
    || n == 0x205F || n == 0x3000
  }

  /** `string.IsNullOrWhiteSpace`: null, empty, or white space only. */
  predicate IsNullOrWhiteSpace(s: Option<string>) {
    s.None? || forall i :: 0 <= i < |s.value| ==> IsWhiteSpace(s.value[i])
  }
}
