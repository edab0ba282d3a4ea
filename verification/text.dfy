/** White-space trimming as the two runtimes of the system define it, and Python's `str.join`. */
module Text {

  /** The browser client trims with JavaScript's `String.prototype.trim`; the server strips
      with Python's `str.strip`. The two runtimes disagree on a few characters. */
  datatype Runtime = JavaScript | Python

  /** White space common to both runtimes (the Unicode space separators, TAB, LF, VT, FF, CR,
      U+2028, U+2029), plus U+FEFF for JavaScript and U+001C..U+001F and U+0085 for Python. */
  predicate IsSpace(rt: Runtime, c: char) {
    var n := c as int;
    || (9 <= n <= 13) || n == 0x20 || n == 0xA0 || n == 0x1680
    || (0x2000 <= n <= 0x200A) || n == 0x2028 || n == 0x2029 || n == 0x202F
    || n == 0x205F || n == 0x3000
    || (rt == JavaScript && n == 0xFEFF)
    || (rt == Python && ((0x1C <= n <= 0x1F) || n == 0x85))
  }

  ghost predicate AllSpace(rt: Runtime, s: string) {
    forall i :: 0 <= i < |s| ==> IsSpace(rt, s[i])
  }

  /** The index of the first character at or after `i` that is not white space (`|s|` when
      there is none): everything skipped is white space. */
  function SkipSpace(rt: Runtime, s: string, i: nat): (n: nat)
    requires i <= |s|
    ensures i <= n <= |s|
    ensures forall j :: i <= j < n ==> IsSpace(rt, s[j])
    ensures n == |s| || !IsSpace(rt, s[n])
    decreases |s| - i
  {
    if i < |s| && IsSpace(rt, s[i]) then SkipSpace(rt, s, i + 1) else i
  }

  /** The end of `s[lo..hi]` once its trailing white space is dropped: everything dropped is
      white space, and what is kept is empty or ends with a non-space. */
  function BackOverSpace(rt: Runtime, s: string, lo: nat, hi: nat): (m: nat)
    requires lo <= hi <= |s|
    ensures lo <= m <= hi
    ensures forall j :: m <= j < hi ==> IsSpace(rt, s[j])
    ensures m == lo || !IsSpace(rt, s[m - 1])
    decreases hi
  {
    if lo < hi && IsSpace(rt, s[hi - 1]) then BackOverSpace(rt, s, lo, hi - 1) else hi
  }

  /** `s.trim()` in JavaScript, `s.strip()` in Python. */
  function Trim(rt: Runtime, s: string): (r: string)
    ensures |r| <= |s|
    ensures r == [] || (!IsSpace(rt, r[0]) && !IsSpace(rt, r[|r| - 1]))
  {
    var lo := SkipSpace(rt, s, 0);
    s[lo..BackOverSpace(rt, s, lo, |s|)]
  }

  /** `!s.trim()` in JavaScript, `not s.strip()` in Python. */
  predicate IsBlank(rt: Runtime, s: string) {
    Trim(rt, s) == []
  }

  /** The trimmed string is the slice of the input that remains once a run of white space
      is cut from each end. */
  lemma TrimIsInnerSlice(rt: Runtime, s: string)
    ensures var lead := SkipSpace(rt, s, 0); var r := Trim(rt, s);
      && lead + |r| <= |s|
      && r == s[lead..lead + |r|]
      && AllSpace(rt, s[..lead])
      && AllSpace(rt, s[lead + |r|..])
  {
  }

  /** A string trims to nothing exactly when every character of it is white space. */
  lemma BlankIffAllSpace(rt: Runtime, s: string)
    ensures IsBlank(rt, s) <==> AllSpace(rt, s)
  {
    TrimIsInnerSlice(rt, s);
    var lead := SkipSpace(rt, s, 0);
    var r := Trim(rt, s);
    if r == [] {
      // nothing survives the leading cut: a non-empty remainder would start with a non-space
      assert lead == |s|;
      assert s[..lead] == s;
    } else {
      assert r[0] == s[lead];
    }
  }

  /** Trimming a string that has no white space at either end leaves it as it is; in
      particular trimming is idempotent. */
  lemma TrimmedIsFixed(rt: Runtime, s: string)
    requires s == [] || (!IsSpace(rt, s[0]) && !IsSpace(rt, s[|s| - 1]))
    ensures Trim(rt, s) == s
    ensures Trim(rt, Trim(rt, s)) == Trim(rt, s)
  {
  }

  /** Trimming is idempotent. */
  lemma TrimIdempotent(rt: Runtime, s: string)
    ensures Trim(rt, Trim(rt, s)) == Trim(rt, s)
  {
    TrimmedIsFixed(rt, Trim(rt, s));
  }

  /** The characters that only Python counts as white space. */
  predicate PythonOnlySpace(c: char) {
    IsSpace(Python, c) && !IsSpace(JavaScript, c)
  }

  /** A string that JavaScript does not find blank and that holds no character only Python
      counts as white space is not blank to Python either, once JavaScript has trimmed it. */
  lemma JsNonBlankIsPyNonBlank(s: string)
    requires !IsBlank(JavaScript, s)
    requires forall i :: 0 <= i < |s| ==> !PythonOnlySpace(s[i])
    ensures Trim(JavaScript, s) != []
    ensures !IsBlank(Python, Trim(JavaScript, s))
  {
    var r := Trim(JavaScript, s);
    TrimIsInnerSlice(JavaScript, s);
    var lead := SkipSpace(JavaScript, s, 0);
    assert r[0] == s[lead];
    assert !IsSpace(Python, r[0]);
    BlankIffAllSpace(Python, r);
  }

  /** Python's `sep.join(parts)`. */
  function Join(parts: seq<string>, sep: string): string {
    if parts == [] then ""
    else if |parts| == 1 then parts[0]
    else parts[0] + sep + Join(parts[1..], sep)
  }

  /** A join starts with its first part. */
  lemma JoinStartsWithFirst(parts: seq<string>, sep: string)
    requires parts != []
    ensures parts[0] <= Join(parts, sep)
  {
  }

  /** A join ends with its last part. */
  lemma {:induction false} JoinEndsWithLast(parts: seq<string>, sep: string)
    requires parts != []
    ensures var j := Join(parts, sep); var last := parts[|parts| - 1];
      |last| <= |j| && j[|j| - |last|..] == last
  {
    if |parts| > 1 {
      JoinEndsWithLast(parts[1..], sep);
      var rest := Join(parts[1..], sep);
      var last := parts[|parts| - 1];
      assert parts[1..][|parts| - 2] == last;
      assert Join(parts, sep) == (parts[0] + sep) + rest;
      assert (parts[0] + sep + rest)[|parts[0] + sep + rest| - |last|..] == rest[|rest| - |last|..];
    }
  }

  /** Three parts joined: each separator between two neighbours. */
  lemma JoinThree(a: string, b: string, c: string, sep: string)
    ensures Join([a, b, c], sep) == a + sep + b + sep + c
  {
    assert [a, b, c][1..] == [b, c];
    assert [b, c][1..] == [c];
    assert Join([b, c], sep) == b + sep + c;
    assert Join([a, b, c], sep) == a + sep + (b + sep + c);
  }

  /** Three parts joined with nothing between them are run together. */
  lemma JoinThreeTogether(a: string, b: string, c: string)
    ensures Join([a, b, c], "") == a + b + c
  {
    JoinThree(a, b, c, "");
    assert a + "" + b + "" + c == a + b + c;
  }

  /** Two strings that share a prefix and then start differently are different, whatever
      follows. */
  lemma DifferAfter(pre: string, a: string, b: string, post1: string, post2: string)
    requires a != [] && b != [] && a[0] != b[0]
    ensures pre + a + post1 != pre + b + post2
  {
    assert (pre + a + post1)[|pre|] == a[0];
    assert (pre + b + post2)[|pre|] == b[0];
  }

  /** Two strings framed by the same prefix and suffix are equal when the framed strings are:
      a fixed template determines what was put into it. */
  lemma FramedEqual(pre: string, a: string, b: string, post: string)
    requires pre + a + post == pre + b + post
    ensures a == b
  {
    var x, y := pre + a + post, pre + b + post;
    assert |a| == |b|;
    assert x[|pre|..|pre| + |a|] == a;
    assert y[|pre|..|pre| + |b|] == b;
  }

  /** A string quoted into a template sits, quotes included, right after the template's
      opening. */
  lemma QuotedAt(pre: string, s: string, post: string)
    ensures var p := pre + "'" + s + "'" + post;
      && |p| == |pre| + |s| + 2 + |post|
      && p[|pre|..|pre| + |s| + 2] == "'" + s + "'"
  {
    assert pre + "'" + s + "'" + post == pre + ("'" + s + "'") + post;
  }

  /** A template with one quoted slot determines what was quoted into it. */
  lemma QuotedDetermines(pre: string, s1: string, s2: string, post: string)
    requires pre + "'" + s1 + "'" + post == pre + "'" + s2 + "'" + post
    ensures s1 == s2
  {
    assert pre + "'" + s1 + "'" + post == (pre + "'") + s1 + ("'" + post);
    assert pre + "'" + s2 + "'" + post == (pre + "'") + s2 + ("'" + post);
    FramedEqual(pre + "'", s1, s2, "'" + post);
  }
}
