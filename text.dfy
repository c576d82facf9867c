/**
 * The string primitives the bot relies on: ECMAScript `String.prototype.trim`,
 * `toLowerCase` and `toUpperCase`, and a substring predicate used to state
 * what a reply contains.
 *
 * Whitespace is the exact ECMAScript set (WhiteSpace and LineTerminator), which
 * is also what `\s` matches in a regular expression. Case mapping covers Basic
 * Latin and the Latin-1 Supplement; characters of other scripts are left as
 * they are.
 */
module Text {

  /** ECMAScript WhiteSpace or LineTerminator: what `trim` removes and `\s` matches. */
  predicate IsSpace(c: char) {
    || c == '\t' || c == '\n' || c == '\U{000B}' || c == '\U{000C}' || c == '\r'
    || c == ' ' || c == '\U{00A0}' || c == '\U{1680}'
    || ('\U{2000}' <= c <= '\U{200A}')
    || c == '\U{2028}' || c == '\U{2029}' || c == '\U{202F}' || c == '\U{205F}'
    || c == '\U{3000}' || c == '\U{FEFF}'
  }

  ghost predicate AllSpace(w: string) {
    forall k :: 0 <= k < |w| ==> IsSpace(w[k])
  }

  /** Neither end of `s` is whitespace: what `trim` produces. */
  predicate IsTrimmed(s: string) {
    s == [] || (!IsSpace(s[0]) && !IsSpace(s[|s| - 1]))
  }

  /** Drops the leading whitespace of `s`; what is left is a suffix of `s`. */
  function TrimStart(s: string): (r: string)
    ensures |r| <= |s| && r == s[|s| - |r|..]
    ensures AllSpace(s[..|s| - |r|])
    ensures r == [] || !IsSpace(r[0])
  {
    if s != [] && IsSpace(s[0]) then TrimStart(s[1..]) else s
  }

  /** Drops the trailing whitespace of `s`; what is left is a prefix of `s`. */
  function TrimEnd(s: string): (r: string)
    ensures |r| <= |s| && r == s[..|r|]
    ensures AllSpace(s[|r|..])
    ensures r == [] || !IsSpace(r[|r| - 1])
  {
    if s != [] && IsSpace(s[|s| - 1]) then TrimEnd(s[..|s| - 1]) else s
  }

  /** `String.prototype.trim`. */
  function Trim(s: string): (r: string)
    ensures IsTrimmed(r)
    ensures |r| <= |s|
    ensures r == [] <==> AllSpace(s)
  {
    TrimFacts(s);
    TrimEnd(TrimStart(s))
  }

  /** The two halves of `Trim` meet: nothing is left exactly when all was whitespace. */
  lemma {:induction false} TrimFacts(s: string)
    ensures IsTrimmed(TrimEnd(TrimStart(s)))
    ensures TrimEnd(TrimStart(s)) == [] <==> AllSpace(s)
  {
    var t := TrimStart(s);
    var r := TrimEnd(t);
    var n := |s| - |t|;
    if r != [] {
      assert r[0] == t[0] == s[n];
    } else {
      assert t[|r|..] == t;
      assert t == [];
      assert s[..n] == s;
    }
  }

  lemma {:induction false} TrimStartOfSpaces(w: string, s: string)
    requires AllSpace(w)
    requires s == [] || !IsSpace(s[0])
    ensures TrimStart(w + s) == s
    decreases |w|
  {
    if w != [] {
      assert (w + s)[1..] == w[1..] + s;
      TrimStartOfSpaces(w[1..], s);
    } else {
      assert w + s == s;
    }
  }

  lemma {:induction false} TrimEndOfSpaces(s: string, w: string)
    requires AllSpace(w)
    requires s == [] || !IsSpace(s[|s| - 1])
    ensures TrimEnd(s + w) == s
    decreases |w|
  {
    if w != [] {
      assert (s + w)[..|s + w| - 1] == s + w[..|w| - 1];
      TrimEndOfSpaces(s, w[..|w| - 1]);
    } else {
      assert s + w == s;
    }
  }

  /**
   * `trim` is exactly "remove the surrounding whitespace": a trimmed text with
   * any whitespace around it trims back to itself.
   */
  lemma TrimSurrounded(w1: string, s: string, w2: string)
    requires AllSpace(w1) && AllSpace(w2) && s != [] && IsTrimmed(s)
    ensures Trim(w1 + s + w2) == s
  {
    assert w1 + s + w2 == w1 + (s + w2);
    TrimStartOfSpaces(w1, s + w2);
    TrimEndOfSpaces(s, w2);
  }

  lemma TrimOfTrimmed(s: string)
    requires IsTrimmed(s)
    ensures Trim(s) == s
  {
    if s != [] {
      assert [] + s + [] == s;
      TrimSurrounded([], s, []);
    }
  }

  /** Lower case of one character (Basic Latin and Latin-1 capitals). */
  function LowerChar(c: char): (r: char)
    ensures IsSpace(r) <==> IsSpace(c)
  {
    if 'A' <= c <= 'Z' || ('\U{00C0}' <= c <= '\U{00DE}' && c != '\U{00D7}')
    then (c as int + 32) as char
    else c
  }

  /** Upper case of one character as a string: `ß` becomes `SS`. */
  function UpperOf(c: char): (r: string)
    ensures r != [] && (forall k :: 0 <= k < |r| ==> (IsSpace(r[k]) <==> IsSpace(c)))
  {
    if 'a' <= c <= 'z' || ('\U{00E0}' <= c <= '\U{00FE}' && c != '\U{00F7}') then [(c as int - 32) as char]
    else if c == '\U{00DF}' then "SS"
    else if c == '\U{00FF}' then "\U{0178}"
    else if c == '\U{00B5}' then "\U{039C}"
    else [c]
  }

  /** `String.prototype.toLowerCase`: one character for one. */
  function ToLower(s: string): (r: string)
    ensures |r| == |s|
    ensures forall k :: 0 <= k < |s| ==> r[k] == LowerChar(s[k])
  {
    if s == [] then [] else [LowerChar(s[0])] + ToLower(s[1..])
  }

  /** `String.prototype.toUpperCase`: may lengthen the text (`ß`). */
  function ToUpper(s: string): (r: string)
    ensures s == [] <==> r == []
    ensures |r| >= |s|
  {
    if s == [] then [] else UpperOf(s[0]) + ToUpper(s[1..])
  }

  lemma {:induction false} ToUpperAppend(s: string, c: char)
    ensures ToUpper(s + [c]) == ToUpper(s) + UpperOf(c)
    decreases |s|
  {
    if s == [] {
      assert [] + [c] == [c];
      assert ToUpper([c][1..]) == [];
    } else {
      assert (s + [c])[0] == s[0];
      assert (s + [c])[1..] == s[1..] + [c];
      ToUpperAppend(s[1..], c);
    }
  }

  lemma ToLowerIdempotent(s: string)
    ensures ToLower(ToLower(s)) == ToLower(s)
  {
    forall k | 0 <= k < |s| ensures LowerChar(LowerChar(s[k])) == LowerChar(s[k]) {
    }
  }

  /** Lower-casing keeps a trimmed text trimmed. */
  lemma ToLowerKeepsTrimmed(s: string)
    requires IsTrimmed(s)
    ensures IsTrimmed(ToLower(s))
  {
  }

  /** Upper-casing keeps a trimmed text trimmed, so a second `trim` changes nothing. */
  lemma ToUpperKeepsTrimmed(s: string)
    requires IsTrimmed(s)
    ensures IsTrimmed(ToUpper(s))
    ensures Trim(ToUpper(s)) == ToUpper(s)
  {
    if s != [] {
      var u := ToUpper(s);
      assert u[0] == UpperOf(s[0])[0];
      var init := s[..|s| - 1];
      assert s == init + [s[|s| - 1]];
      ToUpperAppend(init, s[|s| - 1]);
      var last := UpperOf(s[|s| - 1]);
      assert u[|u| - 1] == last[|last| - 1];
    }
    TrimOfTrimmed(ToUpper(s));
  }

  /** `t` occurs in `s` starting at position `k`. */
  predicate OccursAt(s: string, t: string, k: int) {
    0 <= k && k + |t| <= |s| && s[k..k + |t|] == t
  }

  ghost predicate Contains(s: string, t: string) {
    exists k :: OccursAt(s, t, k)
  }

  lemma ContainsMiddle(a: string, x: string, b: string)
    ensures Contains(a + x + b, x)
  {
    assert (a + x + b)[|a|..|a| + |x|] == x;
    assert OccursAt(a + x + b, x, |a|);
  }

  lemma ContainsSuffix(a: string, x: string)
    ensures Contains(a + x, x)
  {
    assert (a + x)[|a|..] == x;
    assert OccursAt(a + x, x, |a|);
  }

  lemma ContainsPrefix(s: string, t: string, rest: string)
    requires Contains(s, t)
    ensures Contains(s + rest, t)
  {
    var k :| OccursAt(s, t, k);
    assert (s + rest)[k..k + |t|] == s[k..k + |t|];
    assert OccursAt(s + rest, t, k);
  }
}
