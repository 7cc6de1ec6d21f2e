/** String primitives of the analysis engine: the parts of Python's `str`
    that the engine relies on (`lower`, `strip`, `split('\n')`, the `in`
    substring test), restricted to ASCII where Python would apply Unicode
    tables. */
module Text {

  datatype Option<+T> = None | Some(value: T)

  /** The ASCII characters for which Python's `str.isspace` holds (and which
      the `\s` class of the `re` module matches). */
  predicate IsSpace(c: char) {
    var n := c as int;
    n == 32 || (9 <= n <= 13) || (28 <= n <= 31)
  }

  /** `str.lower` on one character, ASCII only. */
  function LowerChar(c: char): (r: char)
    ensures 'A' <= c <= 'Z' ==> 'a' <= r <= 'z'
    ensures !('A' <= c <= 'Z') ==> r == c
  {
    if 'A' <= c <= 'Z' then (c as int + 32) as char else c
  }

  function Lower(s: string): string {
    seq(|s|, i requires 0 <= i < |s| => LowerChar(s[i]))
  }

  lemma LowerAppend(a: string, b: string)
    ensures Lower(a + b) == Lower(a) + Lower(b)
  {
  }

  /** `p` occurs in `s` starting at offset `i`. */
  predicate OccursAt(s: string, p: string, i: int) {
    0 <= i <= |s| - |p| && s[i..i + |p|] == p
  }

  /** Python's `p in s` for strings: `p` occurs in `s` at some offset. */
  predicate Contains(s: string, p: string) {
    exists i :: 0 <= i <= |s| - |p| && OccursAt(s, p, i)
  }

  /** A substring of `s` is still a substring once text is added on either side. */
  lemma ContainsAppend(s: string, t: string, p: string)
    requires Contains(s, p)
    ensures Contains(s + t, p) && Contains(t + s, p)
  {
    var i :| 0 <= i <= |s| - |p| && OccursAt(s, p, i);
    assert (s + t)[i..i + |p|] == p;
    assert OccursAt(s + t, p, i);
    assert (t + s)[|t| + i..|t| + i + |p|] == p;
    assert OccursAt(t + s, p, |t| + i);
  }

  /** `s.lstrip()`: drops the leading whitespace and nothing else. */
  function LStrip(s: string): (r: string)
    ensures |r| <= |s| && r == s[|s| - |r|..]
    ensures forall i :: 0 <= i < |s| - |r| ==> IsSpace(s[i])
    ensures r == [] || !IsSpace(r[0])
  {
    if s != [] && IsSpace(s[0]) then
      var r := LStrip(s[1..]);
      assert s[1..][|s| - 1 - |r|..] == s[|s| - |r|..];
      assert forall i :: 1 <= i < |s| - |r| ==> s[i] == s[1..][i - 1];
      r
    else s
  }

  /** `s.rstrip()`: drops the trailing whitespace and nothing else. */
  function RStrip(s: string): (r: string)
    ensures |r| <= |s| && r == s[..|r|]
    ensures forall i :: |r| <= i < |s| ==> IsSpace(s[i])
    ensures r == [] || !IsSpace(r[|r| - 1])
  {
    if s != [] && IsSpace(s[|s| - 1]) then RStrip(s[..|s| - 1]) else s
  }

  /** `r` is the slice of `s` from `a`, and only whitespace surrounds it. */
  predicate SurroundedBySpace(s: string, a: int, r: string) {
    && 0 <= a && a + |r| <= |s| && r == s[a..a + |r|]
    && (forall i :: 0 <= i < a ==> IsSpace(s[i]))
    && (forall i :: a + |r| <= i < |s| ==> IsSpace(s[i]))
  }

  /** `s.strip()` */
  function Strip(s: string): (r: string)
    ensures |r| <= |s|
    ensures r == [] || (!IsSpace(r[0]) && !IsSpace(r[|r| - 1]))
  {
    RStrip(LStrip(s))
  }

  /** Stripping keeps a middle slice of `s` that only whitespace surrounds. */
  lemma StripSurrounded(s: string)
    ensures exists a :: SurroundedBySpace(s, a, Strip(s))
  {
    var l := LStrip(s);
    var r := RStrip(l);
    Surrounded(s, l, r);
    assert r == Strip(s);
  }

  /** A suffix of `s` after whitespace, cut before trailing whitespace. */
  lemma Surrounded(s: string, l: string, r: string)
    requires |l| <= |s| && l == s[|s| - |l|..]
    requires forall i :: 0 <= i < |s| - |l| ==> IsSpace(s[i])
    requires |r| <= |l| && r == l[..|r|]
    requires forall i :: |r| <= i < |l| ==> IsSpace(l[i])
    ensures SurroundedBySpace(s, |s| - |l|, r)
  {
    var a := |s| - |l|;
    forall m | 0 <= m < |r| ensures r[m] == s[a + m] {
      assert r[m] == l[m];
    }
    assert r == s[a..a + |r|];
    forall i | a + |r| <= i < |s| ensures IsSpace(s[i]) {
      assert s[i] == l[i - a];
    }
  }

  /** The inverse of `Split`: the pieces glued back with the separator. */
  function Join(parts: seq<string>, sep: char): string
    requires |parts| >= 1
  {
    if |parts| == 1 then parts[0] else parts[0] + [sep] + Join(parts[1..], sep)
  }

  /** `s.split(sep)` for a one-character separator: always at least one piece,
      no piece holds the separator, and joining the pieces gives `s` back. */
  function Split(s: string, sep: char): (r: seq<string>)
    ensures |r| >= 1
    ensures forall i :: 0 <= i < |r| ==> sep !in r[i]
    ensures Join(r, sep) == s
  {
    if s == [] then [""]
    else if s[0] == sep then
      var rest := Split(s[1..], sep);
      assert ([""] + rest)[1..] == rest;
      [""] + rest
    else
      var rest := Split(s[1..], sep);
      var r := [[s[0]] + rest[0]] + rest[1..];
      assert r[1..] == rest[1..];
      r
  }

  /** A non-empty line with no whitespace at either end. */
  predicate Trimmed(line: string) {
    line != [] && !IsSpace(line[0]) && !IsSpace(line[|line| - 1])
  }

  /** What one piece contributes: its stripped form, unless that is empty. */
  function Kept(part: string): (r: seq<string>)
    ensures |r| <= 1
    ensures forall i :: 0 <= i < |r| ==> Trimmed(r[i])
  {
    var line := Strip(part);
    if line == [] then [] else [line]
  }

  /** The stripped, non-blank pieces, in order. */
  function NonBlank(parts: seq<string>): (r: seq<string>)
    ensures |r| <= |parts|
    ensures forall i :: 0 <= i < |r| ==> Trimmed(r[i])
  {
    if parts == [] then []
    else
      Kept(parts[0]) + NonBlank(parts[1..])
  }

  /** `[line.strip() for line in text.split('\n') if line.strip()]` */
  function Lines(text: string): (r: seq<string>)
    ensures forall i :: 0 <= i < |r| ==> Trimmed(r[i])
  {
    NonBlank(Split(text, '\n'))
  }

  /** A text without a separator is one piece. */
  lemma {:induction false} SplitNoSeparator(s: string, sep: char)
    requires sep !in s
    ensures Split(s, sep) == [s]
  {
    if s != [] {
      assert sep !in s[1..] by {
        assert forall i :: 0 <= i < |s[1..]| ==> s[1..][i] == s[i + 1];
      }
      SplitNoSeparator(s[1..], sep);
      assert [s[0]] + s[1..] == s;
    }
  }

  /** `Split` of a text that starts with the character `s[0]`. */
  lemma SplitCons(s: string, sep: char)
    requires s != []
    ensures Split(s, sep) ==
      if s[0] == sep then [""] + Split(s[1..], sep)
      else [[s[0]] + Split(s[1..], sep)[0]] + Split(s[1..], sep)[1..]
  {
  }

  /** Gluing a character onto the first piece commutes with appending
      further pieces. */
  lemma ConsFirst(c: char, ra: seq<string>, rb: seq<string>)
    requires |ra| >= 1
    ensures [[c] + (ra + rb)[0]] + (ra + rb)[1..] == [[c] + ra[0]] + ra[1..] + rb
  {
    assert (ra + rb)[1..] == ra[1..] + rb;
  }

  /** Splitting around one separator splits each side on its own. */
  lemma {:induction false} SplitAppend(a: string, b: string, sep: char)
    ensures Split(a + [sep] + b, sep) == Split(a, sep) + Split(b, sep)
  {
    var s := a + [sep] + b;
    if a == [] {
      assert s[0] == sep && s[1..] == b;
      SplitCons(s, sep);
    } else {
      assert s[0] == a[0] && s[1..] == a[1..] + [sep] + b;
      SplitCons(s, sep);
      SplitCons(a, sep);
      SplitAppend(a[1..], b, sep);
      var ra := Split(a[1..], sep);
      var rb := Split(b, sep);
      if a[0] == sep {
        ConcatAssoc([""], ra, rb);
      } else {
        ConsFirst(a[0], ra, rb);
      }
    }
  }

  /** Blank pieces are dropped one by one, so the filter distributes over
      concatenation. */
  lemma {:induction false} NonBlankAppend(p: seq<string>, q: seq<string>)
    ensures NonBlank(p + q) == NonBlank(p) + NonBlank(q)
  {
    if p == [] {
      assert p + q == q;
    } else {
      assert (p + q)[0] == p[0] && (p + q)[1..] == p[1..] + q;
      NonBlankAppend(p[1..], q);
      ConcatAssoc(Kept(p[0]), NonBlank(p[1..]), NonBlank(q));
    }
  }

  lemma ConcatAssoc<T>(a: seq<T>, b: seq<T>, c: seq<T>)
    ensures a + b + c == a + (b + c)
  {
  }

  /** A text without a newline gives its stripped self, or nothing when it
      is blank. */
  lemma LinesSingle(s: string)
    requires '\n' !in s
    ensures Lines(s) == (if Strip(s) == [] then [] else [Strip(s)])
  {
    SplitNoSeparator(s, '\n');
    assert [s][1..] == [];
  }

  /** The lines of two texts joined by a newline are the lines of the first
      followed by those of the second. */
  lemma LinesAppend(a: string, b: string)
    ensures Lines(a + "\n" + b) == Lines(a) + Lines(b)
  {
    SplitAppend(a, b, '\n');
    NonBlankAppend(Split(a, '\n'), Split(b, '\n'));
  }

  /** The position of the first `c` in `s`, if any. */
  function FindChar(s: string, c: char): (r: Option<nat>)
    ensures r.Some? ==> r.value < |s| && s[r.value] == c && c !in s[..r.value]
    ensures r.None? ==> c !in s
  {
    if s == [] then None
    else if s[0] == c then Some(0)
    else match FindChar(s[1..], c)
      case None => None
      case Some(k) =>
        assert s[..k + 1] == [s[0]] + s[1..][..k];
        Some(k + 1)
  }

  /** The first `c` is at `k` when `s[k]` is `c` and no `c` comes before. */
  lemma FindCharAt(s: string, c: char, k: nat)
    requires k < |s| && s[k] == c && c !in s[..k]
    ensures FindChar(s, c) == Some(k)
  {
    var r := FindChar(s, c);
    assert c in s by { assert s[k] == c; }
    assert forall i | 0 <= i < k :: s[..k][i] == s[i];
    assert forall i | 0 <= i < r.value :: s[..r.value][i] == s[i];
  }
}
