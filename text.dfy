/** String helpers standing in for the Python and JavaScript built-ins the
    source calls: `strip`/`trim`, `lower`/`upper`, `startswith` and the
    case-insensitive substring test behind Django's `icontains`.
    Stripping follows each language's own whitespace set; case is ASCII
    only. */
module Text {

  /** Whose built-in strips: Python's `str.strip()` on the backend or
      JavaScript's `String.prototype.trim()` in the browser. */
  datatype Runtime = Python | JavaScript

  /** Whitespace to both languages: tab, line feed, vertical tab, form
      feed, carriage return, space, and the Unicode space separators and
      line/paragraph separators. */
  predicate CommonSpace(c: char) {
    || '\t' <= c <= '\r' || c == ' ' || c == '\U{A0}' || c == '\U{1680}'
    || '\U{2000}' <= c <= '\U{200A}' || c == '\U{2028}' || c == '\U{2029}'
    || c == '\U{202F}' || c == '\U{205F}' || c == '\U{3000}'
  }

  /** Python also strips the four information separators U+001C-U+001F and
      NEXT LINE (U+0085); JavaScript also strips the byte-order mark. */
  predicate IsSpace(rt: Runtime, c: char) {
    || CommonSpace(c)
    || (rt == Python && ('\U{1C}' <= c <= '\U{1F}' || c == '\U{85}'))
    || (rt == JavaScript && c == '\U{FEFF}')
  }

  predicate AllSpace(rt: Runtime, s: string) {
    forall i :: 0 <= i < |s| ==> IsSpace(rt, s[i])
  }

  /** Neither end of `s` is whitespace: what a stripped string looks like. */
  predicate NoEdgeSpace(rt: Runtime, s: string) {
    s == [] || (!IsSpace(rt, s[0]) && !IsSpace(rt, s[|s| - 1]))
  }

  /** `s.strip()` in Python, `s.trim()` in JavaScript: whitespace is
      dropped from the front, then from the back, until neither end is
      whitespace. */
  function Trim(rt: Runtime, s: string): (r: string)
    ensures NoEdgeSpace(rt, r)
    ensures r == [] <==> AllSpace(rt, s)
    ensures |r| <= |s|
    decreases |s|
  {
    if s == [] then []
    else if IsSpace(rt, s[0]) then
      assert AllSpace(rt, s) <==> AllSpace(rt, s[1..]) by {
        assert forall i :: 1 <= i < |s| ==> s[i] == s[1..][i - 1];
      }
      Trim(rt, s[1..])
    else if IsSpace(rt, s[|s| - 1]) then
      assert AllSpace(rt, s) <==> AllSpace(rt, s[..|s| - 1]) by {
        assert forall i :: 0 <= i < |s| - 1 ==> s[i] == s[..|s| - 1][i];
      }
      Trim(rt, s[..|s| - 1])
    else s
  }

  /** Whitespace around a stripped string is exactly what `Trim` removes. */
  lemma {:induction false} TrimPadded(rt: Runtime, a: string, x: string, b: string)
    requires AllSpace(rt, a) && AllSpace(rt, b) && NoEdgeSpace(rt, x)
    ensures Trim(rt, a + x + b) == x
    decreases |a| + |b|
  {
    var s := a + x + b;
    if x == [] {
      assert AllSpace(rt, s) by {
        assert forall i :: 0 <= i < |s| ==> (i < |a| ==> s[i] == a[i]) && (i >= |a| ==> s[i] == b[i - |a|]);
      }
    } else if a != [] {
      assert s[0] == a[0];
      assert s[1..] == a[1..] + x + b;
      TrimPadded(rt, a[1..], x, b);
    } else if b != [] {
      assert s == x + b;
      assert s[0] == x[0];
      assert s[|s| - 1] == b[|b| - 1];
      assert s[..|s| - 1] == [] + x + b[..|b| - 1];
      TrimPadded(rt, [], x, b[..|b| - 1]);
    } else {
      assert s == x;
    }
  }

  /** Stripping only removes characters: whatever the result holds, the
      input held. */
  lemma {:induction false} TrimKeepsChars(rt: Runtime, s: string, c: char)
    requires c in Trim(rt, s)
    ensures c in s
    decreases |s|
  {
    if s == [] {
    } else if IsSpace(rt, s[0]) {
      TrimKeepsChars(rt, s[1..], c);
    } else if IsSpace(rt, s[|s| - 1]) {
      TrimKeepsChars(rt, s[..|s| - 1], c);
    }
  }

  /** `s` holds no character that one language strips and the other keeps. */
  predicate SpaceAgrees(s: string) {
    forall i :: 0 <= i < |s| ==> (IsSpace(Python, s[i]) <==> IsSpace(JavaScript, s[i]))
  }

  /** On such text the backend's `strip()` and the browser's `trim()`
      give the same result. */
  lemma {:induction false} TrimAgrees(s: string)
    requires SpaceAgrees(s)
    ensures Trim(Python, s) == Trim(JavaScript, s)
    decreases |s|
  {
    if s == [] {
    } else if IsSpace(Python, s[0]) {
      assert SpaceAgrees(s[1..]) by {
        assert forall i :: 1 <= i < |s| ==> s[i] == s[1..][i - 1];
      }
      TrimAgrees(s[1..]);
    } else if IsSpace(Python, s[|s| - 1]) {
      assert SpaceAgrees(s[..|s| - 1]) by {
        assert forall i :: 0 <= i < |s| - 1 ==> s[i] == s[..|s| - 1][i];
      }
      TrimAgrees(s[..|s| - 1]);
    }
  }

  function LowerChar(c: char): char {
    if 'A' <= c <= 'Z' then (c as int + 32) as char else c
  }

  function UpperChar(c: char): char {
    if 'a' <= c <= 'z' then (c as int - 32) as char else c
  }

  /** ASCII `lower()`. */
  function Lower(s: string): (r: string)
    ensures |r| == |s|
    ensures forall i :: 0 <= i < |s| ==> r[i] == LowerChar(s[i])
  {
    seq(|s|, i requires 0 <= i < |s| => LowerChar(s[i]))
  }

  /** ASCII `upper()`. */
  function Upper(s: string): (r: string)
    ensures |r| == |s|
    ensures forall i :: 0 <= i < |s| ==> r[i] == UpperChar(s[i])
  {
    seq(|s|, i requires 0 <= i < |s| => UpperChar(s[i]))
  }

  predicate IsLowerWord(s: string) {
    forall i :: 0 <= i < |s| ==> 'a' <= s[i] <= 'z' || s[i] == '_'
  }

  /** Upper-casing a lower-case word loses nothing: lower-casing restores it. */
  lemma LowerUpper(s: string)
    requires IsLowerWord(s)
    ensures Lower(Upper(s)) == s
  {
    assert forall i :: 0 <= i < |s| ==> LowerChar(UpperChar(s[i])) == s[i];
  }

  predicate StartsWith(s: string, prefix: string) {
    |prefix| <= |s| && s[..|prefix|] == prefix
  }

  /** `needle` occurs in `hay` at position `i`. */
  predicate OccursAt(hay: string, needle: string, i: int) {
    0 <= i && i + |needle| <= |hay| && hay[i..i + |needle|] == needle
  }

  /** `needle in hay`, by scanning from the left. */
  predicate Contains(hay: string, needle: string)
    decreases |hay|
  {
    StartsWith(hay, needle) || (hay != [] && Contains(hay[1..], needle))
  }

  /** `Contains` holds exactly when the needle occurs at some position. */
  lemma {:induction false} ContainsOccurs(hay: string, needle: string)
    ensures Contains(hay, needle) <==> exists i :: OccursAt(hay, needle, i)
    decreases |hay|
  {
    if StartsWith(hay, needle) {
      assert OccursAt(hay, needle, 0);
    } else if hay == [] {
      assert needle != [];
    } else {
      ContainsOccurs(hay[1..], needle);
      if exists i :: OccursAt(hay, needle, i) {
        var i :| OccursAt(hay, needle, i);
        assert i != 0;
        assert hay[1..][i - 1..i - 1 + |needle|] == hay[i..i + |needle|];
        assert OccursAt(hay[1..], needle, i - 1);
      }
      if exists j :: OccursAt(hay[1..], needle, j) {
        var j :| OccursAt(hay[1..], needle, j);
        assert hay[1..][j..j + |needle|] == hay[j + 1..j + 1 + |needle|];
        assert OccursAt(hay, needle, j + 1);
      }
    }
  }

  /** Case-insensitive substring test (Django's `icontains`, ASCII folding). */
  predicate IContains(hay: string, needle: string) {
    Contains(Lower(hay), Lower(needle))
  }
}
