/**
 * The JavaScript string operations the modelled code relies on:
 * `startsWith`, `includes`, `replace` with a string pattern, `trim`,
 * `toLowerCase` and `split(/\s+/)`.
 */
module Strings {
  import opened Wrappers

  /** `s.startsWith(p)` */
  predicate StartsWith(s: string, p: string) {
    |p| <= |s| && s[..|p|] == p
  }

  /** `s.includes(p)`: `p` occurs somewhere in `s`. */
  predicate Contains(s: string, p: string)
    decreases |s|
  {
    StartsWith(s, p) || (|s| > 0 && Contains(s[1..], p))
  }

  /** An occurrence at position `i` makes `Contains` true. */
  lemma {:induction false} ContainsAt(s: string, p: string, i: nat)
    requires i <= |s| && StartsWith(s[i..], p)
    ensures Contains(s, p)
    decreases i
  {
    if i > 0 {
      assert s[1..][i - 1..] == s[i..];
      ContainsAt(s[1..], p, i - 1);
    }
  }

  /** `Contains` holds exactly when there is an occurrence at some position. */
  lemma {:induction false} ContainsWitness(s: string, p: string) returns (i: nat)
    requires Contains(s, p)
    ensures i <= |s| && StartsWith(s[i..], p)
    decreases |s|
  {
    if StartsWith(s, p) {
      i := 0;
    } else {
      var j := ContainsWitness(s[1..], p);
      assert s[1..][j..] == s[j + 1..];
      i := j + 1;
    }
  }

  /** Position of the first occurrence of `p` in `s` (`s.indexOf(p)`, or `None` for -1). */
  function IndexOf(s: string, p: string): (r: Option<nat>)
    ensures r.Some? ==> r.value <= |s| && StartsWith(s[r.value..], p)
    ensures r.Some? ==> forall j :: 0 <= j < r.value ==> !StartsWith(s[j..], p)
    ensures r.None? <==> !Contains(s, p)
    ensures r.None? ==> forall j :: 0 <= j <= |s| ==> !StartsWith(s[j..], p)
    decreases |s|
  {
    if StartsWith(s, p) then Some(0)
    else if |s| == 0 then None
    else match IndexOf(s[1..], p)
      case None =>
        assert forall j :: 1 <= j <= |s| ==> s[1..][j - 1..] == s[j..];
        None
      case Some(k) =>
        assert s[1..][k..] == s[k + 1..];
        assert forall j :: 1 <= j <= k ==> s[1..][j - 1..] == s[j..];
        Some(k + 1)
  }

  /** Position of the first occurrence of the character `c` in `s`. */
  function IndexOfChar(s: string, c: char): (r: Option<nat>)
    ensures r.Some? ==> r.value < |s| && s[r.value] == c && c !in s[..r.value]
    ensures r.None? ==> c !in s
  {
    if |s| == 0 then None
    else if s[0] == c then Some(0)
    else match IndexOfChar(s[1..], c)
      case None => None
      case Some(k) =>
        assert s[..k + 1] == [s[0]] + s[1..][..k];
        Some(k + 1)
  }

  /** A character that occurs first at `i` is what `IndexOfChar` finds. */
  lemma {:induction false} IndexOfCharAt(s: string, c: char, i: nat)
    ensures i < |s| && s[i] == c && c !in s[..i] ==> IndexOfChar(s, c) == Some(i)
    decreases i
  {
    if i < |s| && s[i] == c && c !in s[..i] && i > 0 {
      assert s[0] in s[..i];
      assert s[1..][..i - 1] == s[1..i];
      IndexOfCharAt(s[1..], c, i - 1);
    }
  }

  /** Every occurrence of a non-empty pattern contains its first character. */
  lemma {:induction false} ContainsFirstChar(s: string, p: string)
    requires |p| > 0
    ensures Contains(s, p) ==> p[0] in s
    decreases |s|
  {
    if Contains(s, p) && !StartsWith(s, p) {
      ContainsFirstChar(s[1..], p);
      assert p[0] in s[1..];
    }
  }

  /** `s.replace(p, r)` with a string pattern: only the first occurrence is replaced. */
  function ReplaceFirst(s: string, p: string, r: string): (t: string)
    ensures !Contains(s, p) ==> t == s
    ensures StartsWith(s, p) ==> t == r + s[|p|..]
    ensures forall i :: 0 <= i <= |s| && StartsWith(s[i..], p) && (forall j :: 0 <= j < i ==> !StartsWith(s[j..], p)) ==>
      t == s[..i] + r + s[i + |p|..]
  {
    match IndexOf(s, p)
    case None => s
    case Some(i) => s[..i] + r + s[i + |p|..]
  }

  /**
   * Whitespace as `trim` and `\s` see it, approximated by the ASCII set plus
   * NBSP and BOM (the other Unicode space separators and the line and paragraph
   * separators are left out).
   */
  predicate IsWhitespace(c: char) {
    c == ' ' || c == '\t' || c == '\n' || c == '\r' || c == '\U{000B}' || c == '\U{000C}'
    || c == '\U{00A0}' || c == '\U{FEFF}'
  }

  /** Every character of `w` is whitespace. */
  predicate AllWhitespace(w: string) {
    forall i :: 0 <= i < |w| ==> IsWhitespace(w[i])
  }

  /** `s.trim()`: the middle of `s` left after removing whitespace from both ends. */
  function Trim(s: string): (t: string)
    ensures |t| <= |s|
    ensures t != [] ==> !IsWhitespace(t[0]) && !IsWhitespace(t[|t| - 1])
    ensures exists i :: 0 <= i <= |s| - |t| && s[i..][..|t|] == t && AllWhitespace(s[..i]) && AllWhitespace(s[i + |t|..])
  {
    var u := TrimStart(s);
    var t := TrimEnd(u);
    var i := |s| - |u|;
    assert s[i..][..|t|] == t;
    assert AllWhitespace(s[..i]);
    assert s[i + |t|..] == u[|t|..];
    t
  }

  /** A string with no whitespace at either end is its own trim. */
  lemma TrimOfTrimmed(s: string)
    requires s != [] ==> !IsWhitespace(s[0]) && !IsWhitespace(s[|s| - 1])
    ensures Trim(s) == s
  {
  }

  lemma TrimIdempotent(s: string)
    ensures Trim(Trim(s)) == Trim(s)
  {
    TrimOfTrimmed(Trim(s));
  }

  /** `s` without its leading whitespace. */
  function TrimStart(s: string): (t: string)
    ensures |t| <= |s| && (t != [] ==> !IsWhitespace(t[0]))
    ensures t == s[|s| - |t|..]
    ensures forall i :: 0 <= i < |s| - |t| ==> IsWhitespace(s[i])
  {
    if |s| > 0 && IsWhitespace(s[0]) then TrimStart(s[1..]) else s
  }

  /** `s` without its trailing whitespace. */
  function TrimEnd(s: string): (t: string)
    ensures |t| <= |s| && (t != [] ==> !IsWhitespace(t[|t| - 1]))
    ensures t == s[..|t|]
    ensures forall i :: |t| <= i < |s| ==> IsWhitespace(s[i])
  {
    if |s| > 0 && IsWhitespace(s[|s| - 1]) then TrimEnd(s[..|s| - 1]) else s
  }

  /** `toLowerCase` on the ASCII letters. */
  function LowerChar(c: char): char {
    if 'A' <= c <= 'Z' then (c as int + 32) as char else c
  }

  function ToLower(s: string): (t: string)
    ensures |t| == |s| && forall i :: 0 <= i < |s| ==> t[i] == LowerChar(s[i])
  {
    seq(|s|, i requires 0 <= i < |s| => LowerChar(s[i]))
  }

  /** The leading run of non-whitespace characters of `s`. */
  function NonWhitespacePrefix(s: string): (n: nat)
    ensures n <= |s| && (n < |s| ==> IsWhitespace(s[n]))
    ensures forall i :: 0 <= i < n ==> !IsWhitespace(s[i])
  {
    if |s| == 0 || IsWhitespace(s[0]) then 0 else 1 + NonWhitespacePrefix(s[1..])
  }

  /**
   * `s.split(/\s+/)`: the pieces between maximal whitespace runs.  Leading or
   * trailing whitespace yields an empty first or last piece, and the empty
   * string splits into one empty piece.
   */
  function SplitWhitespace(s: string): (r: seq<string>)
    ensures |r| >= 1
    ensures forall w :: w in r ==> forall i :: 0 <= i < |w| ==> !IsWhitespace(w[i])
    ensures r[0] == [] <==> s == [] || IsWhitespace(s[0])
    ensures forall k :: 0 < k < |r| - 1 ==> r[k] != []
    decreases |s|
  {
    var n := NonWhitespacePrefix(s);
    if n == |s| then [s]
    else [s[..n]] + SplitWhitespace(TrimStart(s[n..]))
  }

  /** The whitespace runs `SplitWhitespace` splits at, in order. */
  function Separators(s: string): (seps: seq<string>)
    decreases |s|
  {
    var n := NonWhitespacePrefix(s);
    if n == |s| then []
    else
      var rest := s[n..];
      [rest[..|rest| - |TrimStart(rest)|]] + Separators(TrimStart(rest))
  }

  /** The pieces `ps` with the separator `seps[k]` between `ps[k]` and `ps[k + 1]`. */
  function Join(ps: seq<string>, seps: seq<string>): string
    requires |ps| == |seps| + 1
  {
    if |seps| == 0 then ps[0] else ps[0] + seps[0] + Join(ps[1..], seps[1..])
  }

  /**
   * Splitting loses nothing: `s` is its pieces joined by the separators, each
   * a non-empty whitespace run.  With the pieces free of whitespace and the
   * inner pieces non-empty, this fixes the pieces as the maximal
   * non-whitespace runs of `s`.
   */
  lemma {:induction false} SplitJoin(s: string)
    ensures |SplitWhitespace(s)| == |Separators(s)| + 1
    ensures forall k :: 0 <= k < |Separators(s)| ==> Separators(s)[k] != [] && AllWhitespace(Separators(s)[k])
    ensures Join(SplitWhitespace(s), Separators(s)) == s
    decreases |s|
  {
    var n := NonWhitespacePrefix(s);
    if n < |s| {
      var rest := s[n..];
      var u := TrimStart(rest);
      var sep := rest[..|rest| - |u|];
      assert IsWhitespace(rest[0]);
      assert sep != [] && AllWhitespace(sep);
      assert rest == sep + u;
      SplitJoin(u);
      var r', seps' := SplitWhitespace(u), Separators(u);
      assert SplitWhitespace(s) == [s[..n]] + r';
      assert Separators(s) == [sep] + seps';
      forall k | 0 <= k < |Separators(s)|
        ensures Separators(s)[k] != [] && AllWhitespace(Separators(s)[k])
      {
        if k > 0 {
          assert Separators(s)[k] == seps'[k - 1];
        }
      }
      JoinStep(s, n, sep, u, r', seps');
    }
  }

  /** One separator step of `SplitJoin`, kept apart from the facts about the split. */
  lemma JoinStep(s: string, n: nat, sep: string, u: string, ps: seq<string>, seps: seq<string>)
    requires n <= |s| && s[n..] == sep + u
    requires |ps| == |seps| + 1 && Join(ps, seps) == u
    ensures Join([s[..n]] + ps, [sep] + seps) == s
  {
    assert ([s[..n]] + ps)[1..] == ps && ([sep] + seps)[1..] == seps;
    assert s == s[..n] + s[n..];
  }
}
