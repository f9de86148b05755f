/**
 * The Python `str` operations the downloader relies on, written out on `seq<char>`:
 * `split`, `join`, `find`/`in`, `replace`, `lstrip`, `strip`, `upper`, `lower`,
 * `zfill`, `endswith`, clamped slicing and code-point ordering.
 */
module Strings {
  import opened Wrappers

  // ---------------------------------------------------------------------------
  // Repetition

  /** `c * n` in Python: n copies of c, empty when n is not positive. */
  function Repeat(c: char, n: int): (r: string)
    ensures |r| == (if n <= 0 then 0 else n)
    ensures forall i :: 0 <= i < |r| ==> r[i] == c
    decreases n
  {
    if n <= 0 then [] else [c] + Repeat(c, n - 1)
  }

  // ---------------------------------------------------------------------------
  // Searching for a character

  /** `s.find(c)`, as an option. */
  function IndexOf(s: string, c: char): (r: Option<nat>)
    ensures r.Some? ==> r.value < |s| && s[r.value] == c && c !in s[..r.value]
    ensures r.None? <==> c !in s
  {
    if s == [] then None
    else if s[0] == c then Some(0)
    else
      match IndexOf(s[1..], c)
      case None => None
      case Some(i) =>
        assert s[..i + 1] == [s[0]] + s[1..][..i];
        Some(i + 1)
  }

  /** The first occurrence of c in `a + [c] + b` is right after a, when a has none. */
  lemma IndexOfAfterPrefix(a: string, c: char, b: string)
    requires c !in a
    ensures IndexOf(a + [c] + b, c) == Some(|a|)
  {
    var s := a + [c] + b;
    var r := IndexOf(s, c);
    assert s[|a|] == c;
    assert r.Some?;
    assert forall k :: 0 <= k < |a| ==> s[k] == a[k];
    assert r.value >= |a|;
    assert r.value <= |a|;
  }

  /** Prefixing text without c shifts the first occurrence of c by its length. */
  lemma {:induction false} IndexOfShift(z: string, s: string, c: char)
    requires c !in z
    ensures IndexOf(s, c).None? ==> IndexOf(z + s, c).None?
    ensures IndexOf(s, c).Some? ==> IndexOf(z + s, c) == Some(|z| + IndexOf(s, c).value)
    decreases |z|
  {
    if z == [] {
      assert z + s == s;
    } else {
      var w := z + s;
      assert w[0] == z[0] && w[0] != c && w[1..] == z[1..] + s;
      assert c !in z[1..];
      IndexOfShift(z[1..], s, c);
      IndexOfTail(w, c);
    }
  }

  /** Past a first character that is not c, the first c is one further on. */
  lemma IndexOfTail(w: string, c: char)
    requires w != [] && w[0] != c
    ensures IndexOf(w[1..], c).None? ==> IndexOf(w, c).None?
    ensures IndexOf(w[1..], c).Some? ==> IndexOf(w, c) == Some(IndexOf(w[1..], c).value + 1)
  {
  }

  /**
   * Cutting a prefix t of rest at the first c: what is kept has no c and starts
   * rest; either it is all of t or c comes right after it in rest.
   */
  lemma BeforeCharInPrefix(rest: string, t: string, c: char)
    requires StartsWith(rest, t)
    ensures var a := Before(t, [c]);
      && c !in a && StartsWith(rest, a)
      && (a == t || (|a| < |rest| && rest[|a|] == c))
  {
    var a := Before(t, [c]);
    ContainsChar(a, c);
    ContainsChar(t, c);
    if Contains(t, [c]) {
      assert OccursAt(t, [c], |a|);
      assert t[|a|] == c;
    }
    assert rest[..|a|] == t[..|a|];
  }

  // ---------------------------------------------------------------------------
  // Splitting on a character and joining back

  /** `sep.join(parts)` for a one-character separator. */
  function Join(parts: seq<string>, sep: char): string
  {
    if |parts| == 0 then []
    else if |parts| == 1 then parts[0]
    else parts[0] + [sep] + Join(parts[1..], sep)
  }

  /**
   * `s.split(sep)`: the pieces between successive occurrences of sep. It always
   * yields at least one piece, no piece contains sep, and joining the pieces with
   * sep gives s back.
   */
  function Split(s: string, sep: char): (parts: seq<string>)
    ensures |parts| >= 1
    ensures forall i :: 0 <= i < |parts| ==> sep !in parts[i]
    ensures Join(parts, sep) == s
    ensures |parts| == 1 <==> sep !in s
    decreases |s|
  {
    match IndexOf(s, sep)
    case None => [s]
    case Some(i) =>
      var rest := Split(s[i + 1..], sep);
      assert ([s[..i]] + rest)[1..] == rest;
      assert s == s[..i] + [sep] + s[i + 1..];
      [s[..i]] + rest
  }

  /** A first piece without the separator is split off as it is. */
  lemma SplitStep(a: string, sep: char, rest: string)
    requires sep !in a
    ensures Split(a + [sep] + rest, sep) == [a] + Split(rest, sep)
  {
    var s := a + [sep] + rest;
    IndexOfAfterPrefix(a, sep, rest);
    assert s[..|a|] == a;
    assert s[|a| + 1..] == rest;
  }

  /** Splitting undoes joining whenever no piece contains the separator. */
  lemma {:induction false} SplitJoin(parts: seq<string>, sep: char)
    requires |parts| >= 1
    requires forall i :: 0 <= i < |parts| ==> sep !in parts[i]
    ensures Split(Join(parts, sep), sep) == parts
    decreases |parts|
  {
    if |parts| > 1 {
      var rest := Join(parts[1..], sep);
      assert Join(parts, sep) == parts[0] + [sep] + rest;
      SplitStep(parts[0], sep, rest);
      SplitJoin(parts[1..], sep);
      assert parts == [parts[0]] + parts[1..];
    } else {
      assert IndexOf(parts[0], sep).None?;
    }
  }

  /** The three-piece case used by accession numbers and storage keys. */
  lemma SplitThree(a: string, b: string, c: string, sep: char)
    requires sep !in a && sep !in b && sep !in c
    ensures Split(a + [sep] + b + [sep] + c, sep) == [a, b, c]
  {
    var parts := [a, b, c];
    assert Join(parts[2..], sep) == c;
    assert Join(parts[1..], sep) == b + [sep] + c;
    assert Join(parts, sep) == a + [sep] + b + [sep] + c;
    SplitJoin(parts, sep);
  }

  /** Three parts joined: the separator between the first and second and between the second and third. */
  lemma JoinThree(parts: seq<string>, sep: char)
    requires |parts| == 3
    ensures Join(parts, sep) == parts[0] + [sep] + (parts[1] + [sep] + parts[2])
  {
    assert parts[1..][1..] == [parts[2]];
    assert Join(parts[1..], sep) == parts[1] + [sep] + parts[2];
  }

  /** The two-piece case. */
  lemma SplitTwo(a: string, b: string, sep: char)
    requires sep !in a && sep !in b
    ensures Split(a + [sep] + b, sep) == [a, b]
  {
    var parts := [a, b];
    assert Join(parts[1..], sep) == b;
    SplitJoin(parts, sep);
  }

  /** Joining a concatenation of piece lists puts one separator between the two joins. */
  lemma {:induction false} JoinConcat(p: seq<string>, q: seq<string>, sep: char)
    requires |p| >= 1 && |q| >= 1
    ensures Join(p + q, sep) == Join(p, sep) + [sep] + Join(q, sep)
    decreases |p|
  {
    if |p| > 1 {
      assert (p + q)[1..] == p[1..] + q;
      JoinConcat(p[1..], q, sep);
    } else {
      assert (p + q)[1..] == q;
    }
  }

  /** Splitting text joined at a separator splits both halves independently. */
  lemma SplitConcat(s: string, t: string, sep: char)
    ensures Split(s + [sep] + t, sep) == Split(s, sep) + Split(t, sep)
  {
    var p, q := Split(s, sep), Split(t, sep);
    JoinConcat(p, q, sep);
    SplitJoin(p + q, sep);
  }

  /** Text without the separator in front of s only lengthens the first piece. */
  lemma SplitShift(z: string, s: string, sep: char)
    requires sep !in z
    ensures Split(z + s, sep) == [z + Split(s, sep)[0]] + Split(s, sep)[1..]
  {
    IndexOfShift(z, s, sep);
    var w := z + s;
    if IndexOf(s, sep).None? {
      assert Split(s, sep) == [s];
      assert Split(w, sep) == [w];
    } else {
      var i := IndexOf(s, sep).value;
      var j: nat := |z| + i;
      assert IndexOf(w, sep) == Some(j);
      assert w[..j] == z + s[..i];
      assert w[j + 1..] == s[i + 1..];
      SplitAt(s, sep, i);
      SplitAt(w, sep, j);
    }
  }

  /** Splitting at the first separator: the text before it, then the pieces of the rest. */
  lemma SplitAt(s: string, sep: char, i: nat)
    requires IndexOf(s, sep) == Some(i)
    ensures i < |s| && Split(s, sep) == [s[..i]] + Split(s[i + 1..], sep)
  {
  }

  /** `s.split(sep)[-1]`: the text after the last separator. */
  function LastPiece(s: string, sep: char): string
  {
    var parts := Split(s, sep);
    parts[|parts| - 1]
  }

  /**
   * The last piece has no separator and ends s; it is all of s when s has no
   * separator, and otherwise a separator comes right before it.
   */
  lemma LastPieceSpec(s: string, sep: char)
    ensures var r := LastPiece(s, sep);
      && sep !in r
      && |r| <= |s| && s[|s| - |r|..] == r
      && (sep !in s ==> r == s)
      && (|r| < |s| ==> s[|s| - |r| - 1] == sep)
  {
    LastPieceIsSuffix(Split(s, sep), sep);
  }

  lemma {:induction false} LastPieceIsSuffix(parts: seq<string>, sep: char)
    requires |parts| >= 1
    ensures var s, r := Join(parts, sep), parts[|parts| - 1];
      |r| <= |s| && s[|s| - |r|..] == r && (|r| < |s| ==> s[|s| - |r| - 1] == sep)
    decreases |parts|
  {
    if |parts| > 1 {
      LastPieceIsSuffix(parts[1..], sep);
      var tail := Join(parts[1..], sep);
      var s := parts[0] + [sep] + tail;
      var r := parts[|parts| - 1];
      assert r == parts[1..][|parts[1..]| - 1];
      assert s[|s| - |tail|..] == tail;
      assert s[|s| - |r|..] == tail[|tail| - |r|..];
      if |r| == |tail| {
        assert s[|s| - |r| - 1] == sep;
      } else {
        assert s[|s| - |r| - 1] == tail[|tail| - |r| - 1];
      }
    }
  }

  /** `s.split(sep, 1)` unpacked into two names: fails unless sep occurs. */
  function SplitOnce(s: string, sep: char): (r: Option<(string, string)>)
    ensures r.None? <==> sep !in s
    ensures r.Some? ==> sep !in r.value.0 && r.value.0 + [sep] + r.value.1 == s
  {
    match IndexOf(s, sep)
    case None => None
    case Some(i) =>
      assert s == s[..i] + [sep] + s[i + 1..];
      Some((s[..i], s[i + 1..]))
  }

  // ---------------------------------------------------------------------------
  // Searching for a substring

  /** The pattern occurs in s starting at position i. */
  predicate OccursAt(s: string, pat: string, i: nat)
  {
    i + |pat| <= |s| && s[i..i + |pat|] == pat
  }

  /** `s.find(pat)`, as an option: the first position at which pat occurs. */
  function Find(s: string, pat: string): (r: Option<nat>)
    ensures r.Some? ==> OccursAt(s, pat, r.value)
    ensures r.Some? ==> forall j: nat :: j < r.value ==> !OccursAt(s, pat, j)
    ensures r.None? ==> forall j: nat :: !OccursAt(s, pat, j)
    decreases |s|
  {
    if |s| < |pat| then None
    else if s[..|pat|] == pat then Some(0)
    else
      var r := Find(s[1..], pat);
      assert !OccursAt(s, pat, 0) by { assert s[0..|pat|] == s[..|pat|]; }
      forall j: nat | 1 <= j
        ensures OccursAt(s, pat, j) <==> OccursAt(s[1..], pat, j - 1)
      {
        OccursShift(s, pat, j);
      }
      match r
      case None => None
      case Some(i) =>
        OccursShift(s, pat, i + 1);
        Some(i + 1)
  }

  /** An occurrence after the first character is an occurrence in the rest, one position earlier. */
  lemma OccursShift(s: string, pat: string, j: nat)
    requires 1 <= j && s != []
    ensures OccursAt(s, pat, j) <==> OccursAt(s[1..], pat, j - 1)
  {
    if j + |pat| <= |s| {
      var u, v := s[1..][j - 1..j - 1 + |pat|], s[j..j + |pat|];
      assert |u| == |v|;
      assert forall k :: 0 <= k < |u| ==> u[k] == s[j + k] == v[k];
      assert u == v;
    }
  }

  /** `pat in s`. */
  predicate Contains(s: string, pat: string)
  {
    Find(s, pat).Some?
  }

  /** `s.replace(pat, rep)`: every non-overlapping occurrence, left to right. */
  function ReplaceAll(s: string, pat: string, rep: string): (r: string)
    requires pat != []
    ensures !Contains(s, pat) ==> r == s
    decreases |s|
  {
    match Find(s, pat)
    case None => s
    case Some(i) => s[..i] + rep + ReplaceAll(s[i + |pat|..], pat, rep)
  }

  /** An occurrence in a prefix of t is an occurrence in t. */
  lemma PrefixContains(t: string, a: string, pat: string)
    requires StartsWith(t, a)
    ensures Contains(a, pat) ==> Contains(t, pat)
  {
    if Contains(a, pat) {
      var j := Find(a, pat).value;
      assert a == t[..|a|];
      assert t[j..j + |pat|] == a[j..j + |pat|];
      assert OccursAt(t, pat, j);
    }
  }

  /** `s.split(pat)[0]`: the text before the first occurrence of pat, or all of s. */
  function Before(s: string, pat: string): (r: string)
    requires pat != []
    ensures |r| <= |s| && r == s[..|r|]
    ensures !Contains(r, pat)
    ensures Contains(s, pat) ==> OccursAt(s, pat, |r|) && |r| == Find(s, pat).value
    ensures !Contains(s, pat) ==> r == s
  {
    match Find(s, pat)
    case None => s
    case Some(i) =>
      var r := s[..i];
      assert !Contains(r, pat) by {
        if Find(r, pat).Some? {
          var j := Find(r, pat).value;
          assert r[j..j + |pat|] == s[j..j + |pat|];
          assert OccursAt(s, pat, j);
        }
      }
      r
  }

  /** The text after the first occurrence of pat; None when pat does not occur. */
  function After(s: string, pat: string): (r: Option<string>)
    requires pat != []
    ensures r.None? <==> !Contains(s, pat)
    ensures r.Some? ==> s == Before(s, pat) + pat + r.value
  {
    match Find(s, pat)
    case None => None
    case Some(i) =>
      assert s == s[..i] + s[i..i + |pat|] + s[i + |pat|..];
      Some(s[i + |pat|..])
  }

  /**
   * `s.split(pat)[1]`: the text between the first and the second occurrence of
   * pat (or the end of s); None, Python's IndexError, when pat does not occur.
   */
  function SecondPiece(s: string, pat: string): (r: Option<string>)
    requires pat != []
    ensures r.None? <==> !Contains(s, pat)
    ensures r.Some? ==> var t := After(s, pat).value;
      && StartsWith(t, r.value) && !Contains(r.value, pat)
      && (|r.value| == |t| || OccursAt(t, pat, |r.value|))
  {
    match After(s, pat)
    case None => None
    case Some(t) => Some(Before(t, pat))
  }

  /** For a one-character pattern, occurring means being an element. */
  lemma ContainsChar(s: string, c: char)
    ensures Contains(s, [c]) <==> c in s
  {
    if c in s {
      var k :| 0 <= k < |s| && s[k] == c;
      assert OccursAt(s, [c], k);
    }
    if Contains(s, [c]) {
      var k := Find(s, [c]).value;
      assert s[k..k + 1] == [c];
      assert s[k] == c;
    }
  }

  lemma ReplaceAllAt(s: string, pat: string, rep: string, i: nat)
    requires pat != [] && Find(s, pat) == Some(i)
    ensures ReplaceAll(s, pat, rep) == s[..i] + rep + ReplaceAll(s[i + |pat|..], pat, rep)
  {
  }

  // ---------------------------------------------------------------------------
  // Deleting a character

  /** `s.replace(c, "")` for a one-character c: s with every c taken out, the rest in order. */
  function DeleteChar(s: string, c: char): (r: string)
    ensures |r| <= |s|
  {
    if s == [] then []
    else if s[0] == c then DeleteChar(s[1..], c)
    else [s[0]] + DeleteChar(s[1..], c)
  }

  /** `s.replace(c, "", n)` for a one-character c: only the first n occurrences of c taken out. */
  function DeleteFirst(s: string, c: char, n: nat): (r: string)
    ensures |r| <= |s|
  {
    if n == 0 || s == [] then s
    else if s[0] == c then DeleteFirst(s[1..], c, n - 1)
    else [s[0]] + DeleteFirst(s[1..], c, n)
  }

  /** Deleting c leaves no c, and leaves a string without c as it is. */
  lemma {:induction false} DeleteCharRemoves(s: string, c: char)
    ensures c !in DeleteChar(s, c)
    ensures c !in s ==> DeleteChar(s, c) == s
    decreases |s|
  {
    if s != [] {
      DeleteCharRemoves(s[1..], c);
      if c !in s {
        assert c !in s[1..];
      }
    }
  }

  /** Deleting no occurrence, or deleting from a string without c, changes nothing. */
  lemma {:induction false} DeleteFirstNothing(s: string, c: char, n: nat)
    requires n == 0 || c !in s
    ensures DeleteFirst(s, c, n) == s
    decreases |s|
  {
    if n > 0 && s != [] {
      assert c !in s[1..];
      DeleteFirstNothing(s[1..], c, n);
    }
  }

  /** Deleting c from `a + [c] + b` when a has no c glues a to b with c deleted. */
  lemma {:induction false} DeleteCharStep(a: string, c: char, b: string)
    requires c !in a
    ensures DeleteChar(a + [c] + b, c) == a + DeleteChar(b, c)
    decreases |a|
  {
    if a == [] {
      assert ([c] + b)[1..] == b;
    } else {
      var s := a + [c] + b;
      assert s[0] == a[0] && s[1..] == a[1..] + [c] + b;
      DeleteCharStep(a[1..], c, b);
      assert a == [a[0]] + a[1..];
    }
  }

  /** The same for the first n occurrences: the c after a is the first one, and n - 1 are left. */
  lemma {:induction false} DeleteFirstStep(a: string, c: char, b: string, n: nat)
    requires c !in a && n > 0
    ensures DeleteFirst(a + [c] + b, c, n) == a + DeleteFirst(b, c, n - 1)
    decreases |a|
  {
    if a == [] {
      assert ([c] + b)[1..] == b;
    } else {
      var s := a + [c] + b;
      assert s[0] == a[0] && s[1..] == a[1..] + [c] + b;
      DeleteFirstStep(a[1..], c, b, n);
      assert a == [a[0]] + a[1..];
    }
  }

  // ---------------------------------------------------------------------------
  // Stripping

  /** `s.lstrip(c)` for one character c. */
  function LStrip(s: string, c: char): (r: string)
    ensures |r| <= |s|
    ensures s == Repeat(c, |s| - |r|) + r
    ensures r == [] || r[0] != c
  {
    if s != [] && s[0] == c then
      var r := LStrip(s[1..], c);
      var k := |s[1..]| - |r|;
      assert s[1..] == Repeat(c, k) + r;
      assert Repeat(c, k + 1) == [c] + Repeat(c, k);
      assert s == [c] + s[1..];
      assert [c] + (Repeat(c, k) + r) == ([c] + Repeat(c, k)) + r;
      assert |s| - |r| == k + 1;
      r
    else
      s
  }

  /** Leading copies of c make no difference to `lstrip(c)`. */
  lemma {:induction false} LStripRepeat(c: char, k: nat, s: string)
    ensures LStrip(Repeat(c, k) + s, c) == LStrip(s, c)
    decreases k
  {
    if k > 0 {
      var t := Repeat(c, k) + s;
      assert Repeat(c, k) == [c] + Repeat(c, k - 1);
      assert t[0] == c;
      assert t[1..] == Repeat(c, k - 1) + s;
      assert LStrip(t, c) == LStrip(t[1..], c);
      LStripRepeat(c, k - 1, s);
    } else {
      assert Repeat(c, k) + s == s;
    }
  }

  /** The whitespace characters `str.strip()` removes (the ASCII ones). */
  predicate IsSpace(c: char)
  {
    c == ' ' || c == '\t' || c == '\n' || c == '\r' || c == '\U{B}' || c == '\U{C}'
    || c == '\U{1C}' || c == '\U{1D}' || c == '\U{1E}' || c == '\U{1F}'
  }

  /** `s.strip()`: drops leading and trailing whitespace, keeping the middle. */
  function Strip(s: string): (r: string)
    ensures |r| <= |s|
    ensures r == [] || (!IsSpace(r[0]) && !IsSpace(r[|r| - 1]))
    decreases |s|
  {
    if s == [] then []
    else if IsSpace(s[0]) then Strip(s[1..])
    else if IsSpace(s[|s| - 1]) then Strip(s[..|s| - 1])
    else s
  }

  /** What `strip` keeps is a slice of the original, and what it drops on either side is all white space. */
  lemma {:induction false} StripIsSlice(s: string)
    ensures exists lo, hi :: StrippedAt(s, lo, hi)
    decreases |s|
  {
    if s == [] {
      assert StrippedAt(s, 0, 0);
    } else if IsSpace(s[0]) {
      var t := s[1..];
      StripIsSlice(t);
      var lo, hi :| StrippedAt(t, lo, hi);
      assert Strip(s) == s[lo + 1..hi + 1];
      assert forall i :: 1 <= i < |s| ==> s[i] == t[i - 1];
      assert StrippedAt(s, lo + 1, hi + 1);
    } else if IsSpace(s[|s| - 1]) {
      var t := s[..|s| - 1];
      StripIsSlice(t);
      var lo, hi :| StrippedAt(t, lo, hi);
      assert Strip(s) == s[lo..hi];
      assert forall i :: 0 <= i < |s| - 1 ==> s[i] == t[i];
      assert StrippedAt(s, lo, hi);
    } else {
      assert s[0..|s|] == s;
      assert StrippedAt(s, 0, |s|);
    }
  }

  /** `strip` keeps exactly `s[lo..hi]`, and every character outside it is white space. */
  predicate StrippedAt(s: string, lo: int, hi: int)
  {
    && 0 <= lo <= hi <= |s| && Strip(s) == s[lo..hi]
    && (forall i :: 0 <= i < lo ==> IsSpace(s[i]))
    && (forall i :: hi <= i < |s| ==> IsSpace(s[i]))
  }

  /** `strip` leaves nothing exactly when every character is whitespace. */
  lemma {:induction false} StripBlank(s: string)
    ensures Strip(s) == [] <==> forall i :: 0 <= i < |s| ==> IsSpace(s[i])
    decreases |s|
  {
    if s != [] {
      if IsSpace(s[0]) {
        StripBlank(s[1..]);
        assert forall i :: 1 <= i < |s| ==> s[i] == s[1..][i - 1];
      } else if IsSpace(s[|s| - 1]) {
        StripBlank(s[..|s| - 1]);
        assert forall i :: 0 <= i < |s| - 1 ==> s[i] == s[..|s| - 1][i];
        assert !IsSpace(s[..|s| - 1][0]);
      }
    }
  }

  // ---------------------------------------------------------------------------
  // Case

  function UpperChar(c: char): char
  {
    if 'a' <= c <= 'z' then (c as int - 32) as char else c
  }

  function LowerChar(c: char): char
  {
    if 'A' <= c <= 'Z' then (c as int + 32) as char else c
  }

  /** `s.upper()` on ASCII letters: same length, no lower-case letter left, idempotent. */
  function Upper(s: string): (r: string)
    ensures |r| == |s|
    ensures forall i :: 0 <= i < |s| ==> r[i] == UpperChar(s[i])
    ensures forall i :: 0 <= i < |r| ==> !('a' <= r[i] <= 'z')
    ensures forall i :: 0 <= i < |s| && !('a' <= s[i] <= 'z') ==> r[i] == s[i]
  {
    seq(|s|, i requires 0 <= i < |s| => UpperChar(s[i]))
  }

  /** `s.lower()` on ASCII letters. */
  function Lower(s: string): (r: string)
    ensures |r| == |s|
    ensures forall i :: 0 <= i < |s| ==> r[i] == LowerChar(s[i])
    ensures forall i :: 0 <= i < |r| ==> !('A' <= r[i] <= 'Z')
    ensures forall i :: 0 <= i < |s| && !('A' <= s[i] <= 'Z') ==> r[i] == s[i]
  {
    seq(|s|, i requires 0 <= i < |s| => LowerChar(s[i]))
  }

  lemma UpperIdempotent(s: string)
    ensures Upper(Upper(s)) == Upper(s)
    ensures forall i :: 0 <= i < |s| ==> !('a' <= Upper(s)[i] <= 'z')
  {
  }

  lemma LowerIdempotent(s: string)
    ensures Lower(Lower(s)) == Lower(s)
    ensures forall i :: 0 <= i < |s| ==> !('A' <= Lower(s)[i] <= 'Z')
  {
  }

  // ---------------------------------------------------------------------------
  // Padding, suffixes and slicing

  /**
   * `s.zfill(width)`: left-pads with '0' up to width, keeping a leading sign
   * in front of the zeros; strings already wide enough are unchanged.
   */
  function ZFill(s: string, width: nat): (r: string)
    ensures |r| == if |s| >= width then |s| else width
    ensures |s| >= width ==> r == s
    ensures |s| < width && (s == [] || (s[0] != '+' && s[0] != '-')) ==> r == Repeat('0', width - |s|) + s
    ensures |s| < width && s != [] && (s[0] == '+' || s[0] == '-') ==> r == [s[0]] + Repeat('0', width - |s|) + s[1..]
  {
    if |s| >= width then s
    else if s != [] && (s[0] == '+' || s[0] == '-') then [s[0]] + Repeat('0', width - |s|) + s[1..]
    else Repeat('0', width - |s|) + s
  }

  /** `s.endswith(suffix)`. */
  predicate EndsWith(s: string, suffix: string)
  {
    |suffix| <= |s| && s[|s| - |suffix|..] == suffix
  }

  /** `s.startswith(prefix)`. */
  predicate StartsWith(s: string, prefix: string)
  {
    |prefix| <= |s| && s[..|prefix|] == prefix
  }

  /** `s[lo:hi]` for non-negative bounds: Python clamps them to the length. */
  function Slice(s: string, lo: nat, hi: nat): (r: string)
    ensures |r| == (if hi <= lo || lo >= |s| then 0 else (if hi <= |s| then hi else |s|) - lo)
    ensures lo <= hi <= |s| ==> r == s[lo..hi]
  {
    var h := if hi <= |s| then hi else |s|;
    if lo >= h then [] else s[lo..h]
  }

  // ---------------------------------------------------------------------------
  // Ordering

  /** Python's `a < b` on strings: code-point lexicographic order, a proper prefix first. */
  predicate Less(a: string, b: string)
    decreases |a|
  {
    if a == [] then b != []
    else if b == [] then false
    else if a[0] != b[0] then a[0] < b[0]
    else Less(a[1..], b[1..])
  }

  lemma {:induction false} LessIrreflexive(a: string)
    ensures !Less(a, a)
    decreases |a|
  {
    if a != [] { LessIrreflexive(a[1..]); }
  }

  lemma {:induction false} LessTransitive(a: string, b: string, c: string)
    requires Less(a, b) && Less(b, c)
    ensures Less(a, c)
    decreases |a|
  {
    if a != [] && b != [] && c != [] && a[0] == b[0] && b[0] == c[0] {
      LessTransitive(a[1..], b[1..], c[1..]);
    }
  }

  lemma {:induction false} LessTotal(a: string, b: string)
    ensures a == b || Less(a, b) || Less(b, a)
    decreases |a|
  {
    if a != [] && b != [] && a[0] == b[0] {
      LessTotal(a[1..], b[1..]);
      if a[1..] == b[1..] {
        assert a == [a[0]] + a[1..] && b == [b[0]] + b[1..];
      }
    }
  }

  lemma {:induction false} LessAsymmetric(a: string, b: string)
    requires Less(a, b)
    ensures !Less(b, a)
    decreases |a|
  {
    if a != [] && b != [] && a[0] == b[0] {
      LessAsymmetric(a[1..], b[1..]);
    }
  }

  // ---------------------------------------------------------------------------
  // Paths

  /** `pathlib` joining of relative components: the parts with '/' between them. */
  function PathJoin(parts: seq<string>): string
  {
    Join(parts, '/')
  }

  /** Text without the separator appended to s extends its last piece. */
  lemma {:induction false} LastPieceAppend(s: string, t: string, sep: char)
    requires sep !in t
    ensures LastPiece(s + t, sep) == LastPiece(s, sep) + t
    decreases |s|
  {
    match IndexOf(s, sep)
    case None =>
      assert sep !in s + t by {
        assert forall k :: 0 <= k < |s + t| ==> (s + t)[k] == if k < |s| then s[k] else t[k - |s|];
      }
      assert Split(s, sep) == [s];
      assert Split(s + t, sep) == [s + t];
    case Some(i) =>
      var a, rest := s[..i], s[i + 1..];
      assert s == a + [sep] + rest;
      assert s + t == a + [sep] + (rest + t);
      LastPieceStep(a, sep, rest);
      LastPieceStep(a, sep, rest + t);
      LastPieceAppend(rest, t, sep);
  }

  /** A first piece without the separator does not reach the last piece. */
  lemma LastPieceStep(a: string, sep: char, rest: string)
    requires sep !in a
    ensures LastPiece(a + [sep] + rest, sep) == LastPiece(rest, sep)
  {
    SplitStep(a, sep, rest);
    var p := Split(rest, sep);
    assert ([a] + p)[|p|] == p[|p| - 1];
  }

  /** The text after the last separator of a join is its last part, whatever the earlier parts hold. */
  lemma LastPieceOfJoin(parts: seq<string>, sep: char)
    requires |parts| >= 1 && sep !in parts[|parts| - 1]
    ensures LastPiece(Join(parts, sep), sep) == parts[|parts| - 1]
  {
    var n := |parts|;
    if n > 1 {
      var init, last := parts[..n - 1], parts[n - 1];
      assert parts == init + [last];
      JoinConcat(init, [last], sep);
      SplitConcat(Join(init, sep), last, sep);
    }
  }
}
