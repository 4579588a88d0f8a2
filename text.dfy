/**
 * The three string operations the core relies on: `toLowerCase`, `includes`
 * and `trim`, together with reference characterisations of each and the
 * lemmas used to decide `includes` on concrete messages.
 */
module Text {

  // ---------------------------------------------------------------------
  // Lower-casing (ASCII letters only)
  // ---------------------------------------------------------------------

  function LowerChar(c: char): char {
    if 'A' <= c <= 'Z' then (c as int + 32) as char else c
  }

  /** `s.toLowerCase()`, restricted to the ASCII letters. */
  function Lower(s: string): (r: string)
    ensures |r| == |s|
  {
    seq(|s|, i requires 0 <= i < |s| => LowerChar(s[i]))
  }

  lemma LowerAppend(a: string, b: string)
    ensures Lower(a + b) == Lower(a) + Lower(b)
  {
    assert forall i :: 0 <= i < |a| + |b| ==> Lower(a + b)[i] == (Lower(a) + Lower(b))[i];
  }

  /** The result of lower-casing holds no upper-case ASCII letter. */
  lemma LowerHasNoUpper(s: string)
    ensures forall i :: 0 <= i < |s| ==> !('A' <= Lower(s)[i] <= 'Z')
  {
  }

  lemma LowerIdempotent(s: string)
    ensures Lower(Lower(s)) == Lower(s)
  {
    assert forall i :: 0 <= i < |s| ==> Lower(Lower(s))[i] == Lower(s)[i];
  }

  /**
   * A character is missing from `Lower(s)` when neither it nor, for a
   * lower-case letter, its upper-case form occurs in `s`.
   */
  lemma LowerAbsent(s: string, c: char)
    requires c !in s
    requires 'a' <= c <= 'z' ==> (c as int - 32) as char !in s
    ensures c !in Lower(s)
  {
    forall i | 0 <= i < |s| ensures Lower(s)[i] != c {
      if 'A' <= s[i] <= 'Z' {
        assert s[i] == (LowerChar(s[i]) as int - 32) as char;
      }
    }
  }

  // ---------------------------------------------------------------------
  // Substring search
  // ---------------------------------------------------------------------

  /** `k` occurs in `s` starting at index `i`. */
  predicate OccursAt(s: string, k: string, i: int) {
    0 <= i && i + |k| <= |s| && s[i..i + |k|] == k
  }

  /** `s.includes(k)`: some window of `s` equals `k`. */
  predicate Includes(s: string, k: string)
    ensures Includes(s, k) ==> |k| <= |s|
    ensures k == [] ==> Includes(s, k)
  {
    assert k == [] ==> OccursAt(s, k, 0);
    exists i :: 0 <= i <= |s| - |k| && OccursAt(s, k, i)
  }

  /** `includes` agrees with the plain definition: the text is the keyword with something on each side. */
  lemma IncludesIffSplit(s: string, k: string)
    ensures Includes(s, k) <==> exists a, b :: s == a + k + b
  {
    if Includes(s, k) {
      var i :| 0 <= i <= |s| - |k| && OccursAt(s, k, i);
      assert s == s[..i] + k + s[i + |k|..];
    }
    if exists a, b :: s == a + k + b {
      var a, b :| s == a + k + b;
      IncludesAt(a, k, b);
    }
  }

  /** A keyword placed anywhere in a string is found there. */
  lemma IncludesAt(a: string, k: string, b: string)
    ensures Includes(a + k + b, k)
  {
    assert OccursAt(a + k + b, k, |a|);
  }

  // ---------------------------------------------------------------------
  // Proving that a keyword is absent, one chunk at a time
  // ---------------------------------------------------------------------

  /** `k[j..]` lines up with `t` when `k` is laid down at offset `p` (which may be negative). */
  ghost predicate TailMatches(t: string, k: string, j: nat, p: int) {
    forall x :: j <= x < |k| && 0 <= p + x < |t| ==> t[p + x] == k[x]
  }

  /**
   * No placement of `k` that ends inside `t`, and whose character `k[j]`
   * falls inside `t`, matches `t` from `k[j]` onwards.
   */
  ghost predicate Avoids(t: string, k: string, j: nat) {
    forall p: int :: -(j as int) <= p && p + |k| <= |t| ==> !TailMatches(t, k, j, p)
  }

  lemma AvoidsEmpty(k: string, j: nat)
    requires j < |k|
    ensures Avoids("", k, j)
  {
  }

  /**
   * A chunk that lacks the keyword character `k[j1]` may be put in front of
   * a string that avoids `k` from `j1` on.
   */
  lemma AvoidsCons(a: string, rest: string, k: string, j: nat, j1: nat)
    requires j <= j1 < |k|
    requires k[j1] !in a
    requires Avoids(rest, k, j1)
    ensures Avoids(a + rest, k, j)
  {
    var t := a + rest;
    forall p: int | -(j as int) <= p && p + |k| <= |t| ensures !TailMatches(t, k, j, p) {
      if p + j1 < |a| {
        assert t[p + j1] == a[p + j1];
        assert t[p + j1] != k[j1];
      } else {
        var q := p - |a|;
        assert !TailMatches(rest, k, j1, q);
        var x :| j1 <= x < |k| && 0 <= q + x < |rest| && rest[q + x] != k[x];
        assert t[p + x] == rest[q + x];
      }
    }
  }

  lemma AvoidsNotIncludes(t: string, k: string)
    requires |k| > 0
    requires Avoids(t, k, 0)
    ensures !Includes(t, k)
  {
    forall i | 0 <= i <= |t| - |k| ensures !OccursAt(t, k, i) {
      assert !TailMatches(t, k, 0, i);
      var x :| 0 <= x < |k| && 0 <= i + x < |t| && t[i + x] != k[x];
      assert t[i..i + |k|][x] == t[i + x];
    }
  }

  /** A keyword with a character that the string lacks does not occur in it. */
  lemma MissingCharNotIncluded(t: string, k: string, j: nat)
    requires j < |k|
    requires k[j] !in t
    ensures !Includes(t, k)
  {
    AvoidsEmpty(k, j);
    AvoidsCons(t, "", k, 0, j);
    assert t + "" == t;
    AvoidsNotIncludes(t, k);
  }

  /** `c` and, for a lower-case letter, its upper-case form are both missing from `s`. */
  predicate Lacks(s: string, c: char) {
    c !in s && ('a' <= c <= 'z' ==> (c as int - 32) as char !in s)
  }

  /** The pieces joined, first to last. */
  function Concat(pieces: seq<string>): string {
    if pieces == [] then "" else pieces[0] + Concat(pieces[1..])
  }

  /**
   * Piece `i` lacks the keyword character `k[js[i]]`, and the positions
   * `js` never go back: then no occurrence of `k` fits anywhere.
   */
  predicate Chain(pieces: seq<string>, js: seq<nat>, k: string) {
    && |pieces| == |js|
    && (forall i :: 0 <= i < |js| ==> js[i] < |k| && Lacks(pieces[i], k[js[i]]))
    && (forall i :: 0 < i < |js| ==> js[i - 1] <= js[i])
  }

  lemma {:induction false} ChainAvoids(pieces: seq<string>, js: seq<nat>, k: string, j: nat)
    requires Chain(pieces, js, k)
    requires j < |k|
    requires js != [] ==> j <= js[0]
    ensures Avoids(Lower(Concat(pieces)), k, j)
  {
    if pieces == [] {
      AvoidsEmpty(k, j);
    } else {
      var rest := Concat(pieces[1..]);
      assert Chain(pieces[1..], js[1..], k);
      ChainAvoids(pieces[1..], js[1..], k, js[0]);
      LowerAbsent(pieces[0], k[js[0]]);
      AvoidsCons(Lower(pieces[0]), Lower(rest), k, j, js[0]);
      LowerAppend(pieces[0], rest);
    }
  }

  lemma ChainNotIncluded(pieces: seq<string>, js: seq<nat>, k: string)
    requires |k| > 0
    requires Chain(pieces, js, k)
    ensures !Includes(Lower(Concat(pieces)), k)
  {
    ChainAvoids(pieces, js, k, 0);
    AvoidsNotIncludes(Lower(Concat(pieces)), k);
  }

  lemma ConcatTwo(a: string, b: string)
    ensures Concat([a, b]) == a + b
  {
    assert [a, b][1..] == [b];
    assert [b][1..] == [];
    assert Concat([b]) == b + "" == b;
    assert Concat([a, b]) == a + Concat([b]);
  }

  lemma ConcatThree(a: string, b: string, c: string)
    ensures Concat([a, b, c]) == a + b + c
  {
    assert [a, b, c][1..] == [b, c];
    ConcatTwo(b, c);
  }

  /** The chain argument for a text of two pieces. */
  lemma NotIncludedTwo(a: string, b: string, k: string, ja: nat, jb: nat)
    requires ja <= jb < |k|
    requires Lacks(a, k[ja]) && Lacks(b, k[jb])
    ensures !Includes(Lower(a + b), k)
  {
    var js: seq<nat> := [ja, jb];
    assert Chain([a, b], js, k) by {
      assert js[0] == ja && js[1] == jb;
    }
    ChainNotIncluded([a, b], js, k);
    ConcatTwo(a, b);
  }

  /** The chain argument for a text of three pieces. */
  lemma NotIncludedThree(a: string, b: string, c: string, k: string, ja: nat, jb: nat, jc: nat)
    requires ja <= jb <= jc < |k|
    requires Lacks(a, k[ja]) && Lacks(b, k[jb]) && Lacks(c, k[jc])
    ensures !Includes(Lower(a + b + c), k)
  {
    var js: seq<nat> := [ja, jb, jc];
    assert Chain([a, b, c], js, k) by {
      assert js[0] == ja && js[1] == jb && js[2] == jc;
    }
    ChainNotIncluded([a, b, c], js, k);
    ConcatThree(a, b, c);
  }

  /** A piece whose lower-cased form is the keyword puts the keyword in the lower-cased text. */
  lemma IncludesLowerAt(a: string, b: string, c: string, k: string)
    requires Lower(b) == k
    ensures Includes(Lower(a + b + c), k)
  {
    LowerAppend(a + b, c);
    LowerAppend(a, b);
    IncludesAt(Lower(a), k, Lower(c));
  }

  /** A keyword with a character that the text lacks in either case does not occur in the lower-cased text. */
  lemma LacksNotIncluded(s: string, k: string, j: nat)
    requires j < |k| && Lacks(s, k[j])
    ensures !Includes(Lower(s), k)
  {
    LowerAbsent(s, k[j]);
    MissingCharNotIncluded(Lower(s), k, j);
  }

  // ---------------------------------------------------------------------
  // Trimming
  // ---------------------------------------------------------------------

  /** The characters `String.prototype.trim` removes: ECMAScript WhiteSpace and LineTerminator. */
  predicate IsJsWhitespace(c: char) {
    || c == '\t' || c == '\n' || c == '\U{000B}' || c == '\U{000C}' || c == '\r'
    || c == ' ' || c == '\U{00A0}' || c == '\U{1680}'
    || ('\U{2000}' <= c <= '\U{200A}')
    || c == '\U{2028}' || c == '\U{2029}' || c == '\U{202F}' || c == '\U{205F}'
    || c == '\U{3000}' || c == '\U{FEFF}'
  }

  /** Drops the leading whitespace: what is left is a suffix that starts with a non-blank. */
  function TrimStart(s: string): (r: string)
    ensures |r| <= |s| && r == s[|s| - |r|..]
    ensures forall x :: 0 <= x < |s| - |r| ==> IsJsWhitespace(s[x])
    ensures r != "" ==> !IsJsWhitespace(r[0])
  {
    if s != "" && IsJsWhitespace(s[0]) then TrimStart(s[1..]) else s
  }

  /** Drops the trailing whitespace: what is left is a prefix that ends with a non-blank. */
  function TrimEnd(s: string): (r: string)
    ensures |r| <= |s| && r == s[..|r|]
    ensures forall x :: |r| <= x < |s| ==> IsJsWhitespace(s[x])
    ensures r != "" ==> !IsJsWhitespace(r[|r| - 1])
  {
    if s != "" && IsJsWhitespace(s[|s| - 1]) then TrimEnd(s[..|s| - 1]) else s
  }

  /** `s.trim()`: a piece of `s` with no blank at either end. */
  function Trim(s: string): (r: string)
    ensures Includes(s, r)
    ensures r != "" ==> !IsJsWhitespace(r[0]) && !IsJsWhitespace(r[|r| - 1])
  {
    var t := TrimStart(s);
    assert OccursAt(s, TrimEnd(t), |s| - |t|);
    TrimEnd(t)
  }

  /** `s.trim()` is empty, hence falsy, exactly when `s` is all whitespace. */
  lemma TrimEmptyIff(s: string)
    ensures Trim(s) == "" <==> forall x :: 0 <= x < |s| ==> IsJsWhitespace(s[x])
  {
    var t := TrimStart(s);
    if t != "" {
      assert s[|s| - |t|] == t[0];
    }
  }

  lemma {:induction false} TrimStartSkips(a: string, c: string)
    requires forall x :: 0 <= x < |a| ==> IsJsWhitespace(a[x])
    requires c != "" && !IsJsWhitespace(c[0])
    ensures TrimStart(a + c) == c
  {
    if a != "" {
      assert (a + c)[1..] == a[1..] + c;
      TrimStartSkips(a[1..], c);
    }
  }

  lemma {:induction false} TrimEndSkips(c: string, b: string)
    requires forall x :: 0 <= x < |b| ==> IsJsWhitespace(b[x])
    requires c != "" && !IsJsWhitespace(c[|c| - 1])
    ensures TrimEnd(c + b) == c
  {
    if b != "" {
      assert (c + b)[..|c + b| - 1] == c + b[..|b| - 1];
      TrimEndSkips(c, b[..|b| - 1]);
    } else {
      assert c + b == c;
    }
  }

  /** Trimming keeps the string between the first and the last non-blank untouched. */
  lemma TrimKeepsCore(a: string, core: string, b: string)
    requires forall x :: 0 <= x < |a| ==> IsJsWhitespace(a[x])
    requires forall x :: 0 <= x < |b| ==> IsJsWhitespace(b[x])
    requires core != "" && !IsJsWhitespace(core[0]) && !IsJsWhitespace(core[|core| - 1])
    ensures Trim(a + core + b) == core
  {
    assert a + core + b == a + (core + b);
    TrimStartSkips(a, core + b);
    TrimEndSkips(core, b);
  }
}
