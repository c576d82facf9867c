/**
 * The e-mail shape test of the remote-support stage: the regular expression
 * `^[^\s@]+@[^\s@]+\.[^\s@]+$`.
 *
 * `MatchesEmailPattern` states the expression directly (the text splits into
 * three non-empty runs of characters that are neither whitespace nor `@`,
 * separated by an `@` and then a `.`); `IsEmail` is the decision procedure the
 * model runs, and `IsEmailIffPattern` proves the two agree on every text.
 */
module Email {
  import opened Text

  /** The character class `[^\s@]`. */
  predicate IsPlain(c: char) {
    !IsSpace(c) && c != '@'
  }

  predicate AllPlain(w: string) {
    forall k :: 0 <= k < |w| ==> IsPlain(w[k])
  }

  /** `s` matches the expression with its `@` at `i` and the separating `.` at `j`. */
  ghost predicate MatchesAt(s: string, i: int, j: int) {
    && 0 < i && i + 1 < j && j + 1 < |s|
    && s[i] == '@' && s[j] == '.'
    && AllPlain(s[..i]) && AllPlain(s[i + 1..j]) && AllPlain(s[j + 1..])
  }

  ghost predicate MatchesEmailPattern(s: string) {
    exists i, j :: MatchesAt(s, i, j)
  }

  /** Position of the first `c` in `s`, or `|s|` when there is none. */
  function IndexOf(s: string, c: char): (i: nat)
    ensures i <= |s|
    ensures i < |s| ==> s[i] == c
    ensures forall k :: 0 <= k < i ==> s[k] != c
  {
    if s == [] then 0
    else if s[0] == c then 0
    else 1 + IndexOf(s[1..], c)
  }

  /** A `.` with at least one character on each side. */
  predicate HasInnerDot(d: string) {
    exists k :: 0 < k < |d| - 1 && d[k] == '.'
  }

  /** The local part runs up to the first `@` (it may not contain one); the rest is the domain. */
  predicate IsEmail(s: string) {
    var i := IndexOf(s, '@');
    && 0 < i < |s|
    && AllPlain(s[..i])
    && AllPlain(s[i + 1..])
    && HasInnerDot(s[i + 1..])
  }

  lemma {:induction false} IsEmailIffPattern(s: string)
    ensures IsEmail(s) <==> MatchesEmailPattern(s)
  {
    if IsEmail(s) {
      EmailMatches(s);
    }
    if MatchesEmailPattern(s) {
      var i, j :| MatchesAt(s, i, j);
      MatchIsEmail(s, i, j);
    }
  }

  /** An accepted text matches the expression, at its first `@` and a `.` after it. */
  lemma {:induction false} EmailMatches(s: string)
    requires IsEmail(s)
    ensures MatchesEmailPattern(s)
  {
    var i := IndexOf(s, '@');
    var d := s[i + 1..];
    var k :| 0 < k < |d| - 1 && d[k] == '.';
    var j := i + 1 + k;
    assert s[i + 1..j] == d[..k];
    assert s[j + 1..] == d[k + 1..];
    assert MatchesAt(s, i, j);
  }

  /** A match is accepted: its `@` is the first one, and the domain has an inner `.`. */
  lemma {:induction false} MatchIsEmail(s: string, i: int, j: int)
    requires MatchesAt(s, i, j)
    ensures IsEmail(s)
  {
    forall k | 0 <= k < i ensures s[k] != '@' {
      assert s[k] == s[..i][k];
    }
    IndexOfFirst(s, '@', i);
    var d := s[i + 1..];
    assert d == s[i + 1..j] + ['.'] + s[j + 1..];
    assert AllPlain(d);
    assert d[j - i - 1] == '.';
  }

  /** A local part and a domain of plain characters, the domain with an inner `.`, joined by `@`. */
  lemma {:induction false} JoinedIsEmail(local: string, domain: string)
    requires local != [] && AllPlain(local)
    requires AllPlain(domain) && HasInnerDot(domain)
    ensures IsEmail(local + "@" + domain)
  {
    var s := local + "@" + domain;
    var i := |local|;
    forall k | 0 <= k < i ensures s[k] != '@' {
      assert s[k] == local[k];
    }
    IndexOfFirst(s, '@', i);
    assert s[..i] == local;
    assert s[i + 1..] == domain;
  }

  lemma IndexOfFirst(s: string, c: char, i: nat)
    requires i < |s| && s[i] == c
    requires forall k :: 0 <= k < i ==> s[k] != c
    ensures IndexOf(s, c) == i
  {
  }

  function Count(s: string, c: char): nat {
    if s == [] then 0 else (if s[0] == c then 1 else 0) + Count(s[1..], c)
  }

  lemma {:induction false} CountAppend(a: string, b: string, c: char)
    ensures Count(a + b, c) == Count(a, c) + Count(b, c)
    decreases |a|
  {
    if a == [] {
      assert a + b == b;
    } else {
      assert (a + b)[0] == a[0];
      assert (a + b)[1..] == a[1..] + b;
      CountAppend(a[1..], b, c);
    }
  }

  lemma {:induction false} CountAbsent(s: string, c: char)
    requires forall k :: 0 <= k < |s| ==> s[k] != c
    ensures Count(s, c) == 0
    decreases |s|
  {
    if s != [] {
      CountAbsent(s[1..], c);
    }
  }

  /** An accepted address has no whitespace and exactly one `@`. */
  lemma {:induction false} EmailShape(s: string)
    requires IsEmail(s)
    ensures forall k :: 0 <= k < |s| ==> !IsSpace(s[k])
    ensures Count(s, '@') == 1
  {
    var i := IndexOf(s, '@');
    var local, domain := s[..i], s[i + 1..];
    assert s == local + "@" + domain;
    EmailNoSpace(local, domain);
    EmailOneAt(local, domain);
  }

  lemma {:induction false} EmailNoSpace(local: string, domain: string)
    requires AllPlain(local) && AllPlain(domain)
    ensures forall k :: 0 <= k < |local + "@" + domain| ==> !IsSpace((local + "@" + domain)[k])
  {
    var s := local + "@" + domain;
    forall k | 0 <= k < |s| ensures !IsSpace(s[k]) {
      if k < |local| {
        assert s[k] == local[k];
      } else if k > |local| {
        assert s[k] == domain[k - |local| - 1];
      }
    }
  }

  lemma {:induction false} EmailOneAt(local: string, domain: string)
    requires AllPlain(local) && AllPlain(domain)
    ensures Count(local + "@" + domain, '@') == 1
  {
    CountAbsent(local, '@');
    CountAbsent(domain, '@');
    CountAppend(local + "@", domain, '@');
    CountAppend(local, "@", '@');
  }

  /** Lower-case ASCII letters and dots are in the class `[^\s@]`. */
  lemma LettersAndDotsArePlain(w: string)
    requires forall k :: 0 <= k < |w| ==> ('a' <= w[k] <= 'z' || w[k] == '.')
    ensures AllPlain(w)
  {
  }

  lemma {:induction false} AcceptedExample()
    ensures IsEmail("user@example.com")
  {
    var d := "example" + ['.'] + "com";
    PlainJoin("example", "com");
    assert d[7] == '.';
    LettersAndDotsArePlain("user");
    JoinedIsEmail("user", d);
    assert "user" + "@" + d == "user@example.com";
  }

  lemma PlainJoin(a: string, b: string)
    requires forall k :: 0 <= k < |a| ==> 'a' <= a[k] <= 'z'
    requires forall k :: 0 <= k < |b| ==> 'a' <= b[k] <= 'z'
    ensures AllPlain(a + ['.'] + b)
  {
  }

  /** The rejected example: no `@` at all. */
  lemma {:induction false} RejectedExample()
    ensures !IsEmail("not-an-email")
  {
    var t := "not-an-email";
    assert forall k :: 0 <= k < |t| ==> t[k] != '@';
    assert IndexOf(t, '@') == |t|;
  }
}
