/** List facts the engine's `append`-if-`not in` loops rely on: duplicate
    freedom, the position of an element's first occurrence, and the
    order-preserving removal of repeats. */
module Seqs {

  predicate NoDuplicates(s: seq<string>) {
    forall i, j :: 0 <= i < j < |s| ==> s[i] != s[j]
  }

  /** Python's `s.index(x)`: the position of the first occurrence of `x`. */
  function IndexOf(s: seq<string>, x: string): (r: nat)
    requires x in s
    ensures r < |s| && s[r] == x && x !in s[..r]
  {
    if s[0] == x then 0
    else
      var k := IndexOf(s[1..], x);
      assert s[..k + 1] == [s[0]] + s[1..][..k];
      k + 1
  }

  /** The first occurrence of `x` is the only position that holds `x` with
      no `x` before it. */
  lemma IndexOfUnique(s: seq<string>, x: string, k: nat)
    requires k < |s| && s[k] == x && x !in s[..k]
    ensures IndexOf(s, x) == k
  {
    var r := IndexOf(s, x);
    assert forall i | 0 <= i < k :: s[..k][i] == s[i];
    assert forall i | 0 <= i < r :: s[..r][i] == s[i];
  }

  /** Extending a list at the end does not move the first occurrence of an
      element it already holds. */
  lemma IndexOfExtend(s: seq<string>, t: seq<string>, x: string)
    requires x in s
    ensures x in s + t && IndexOf(s + t, x) == IndexOf(s, x)
  {
    var k := IndexOf(s, x);
    assert (s + t)[..k] == s[..k];
    IndexOfUnique(s + t, x, k);
  }

  /** Every element of `r` occurs in `s`, and `r` lists them in the order in
      which they first occur in `s`. */
  predicate InFirstOccurrenceOrder(r: seq<string>, s: seq<string>) {
    (forall x :: x in r ==> x in s)
    && forall i, j :: 0 <= i < j < |r| ==> r[i] in s && r[j] in s && IndexOf(s, r[i]) < IndexOf(s, r[j])
  }

  /** The distinct elements of `s`, each kept at its first occurrence: the
      list the loop `for x in s: if x not in r: r.append(x)` builds. */
  function Dedup(s: seq<string>): (r: seq<string>)
    ensures forall x :: x in r <==> x in s
    ensures NoDuplicates(r)
  {
    if s == [] then []
    else
      var d := Dedup(s[..|s| - 1]);
      assert forall x :: x in s <==> x in s[..|s| - 1] || x == s[|s| - 1] by {
        assert s == s[..|s| - 1] + [s[|s| - 1]];
      }
      if s[|s| - 1] in d then d else d + [s[|s| - 1]]
  }

  /** First-occurrence order survives extending the reference list. */
  lemma OrderExtend(r: seq<string>, s: seq<string>, t: seq<string>)
    requires InFirstOccurrenceOrder(r, s)
    ensures InFirstOccurrenceOrder(r, s + t)
  {
    forall y | y in s ensures IndexOf(s + t, y) == IndexOf(s, y) {
      IndexOfExtend(s, t, y);
    }
    forall i, j | 0 <= i < j < |r| ensures IndexOf(s + t, r[i]) < IndexOf(s + t, r[j]) {
      assert r[i] in s && r[j] in s;
    }
  }

  /** Appending an element the reference list did not hold to both lists
      keeps first-occurrence order. */
  lemma OrderAppendNew(r: seq<string>, s: seq<string>, x: string)
    requires InFirstOccurrenceOrder(r, s) && x !in s
    ensures InFirstOccurrenceOrder(r + [x], s + [x])
  {
    OrderExtend(r, s, [x]);
    assert (s + [x])[..|s|] == s;
    IndexOfUnique(s + [x], x, |s|);
    var q := r + [x];
    forall i, j | 0 <= i < j < |q| ensures IndexOf(s + [x], q[i]) < IndexOf(s + [x], q[j]) {
      assert q[i] == r[i] && r[i] in r;
      if j < |r| {
        assert q[j] == r[j];
      }
    }
  }

  /** One step of the deduplicating loop. */
  lemma DedupSnoc(s: seq<string>, x: string)
    ensures Dedup(s + [x]) == if x in Dedup(s) then Dedup(s) else Dedup(s) + [x]
  {
    assert (s + [x])[..|s|] == s;
  }

  /** The deduplicated list keeps first-occurrence order. */
  lemma {:induction false} DedupOrder(s: seq<string>)
    ensures InFirstOccurrenceOrder(Dedup(s), s)
  {
    if s != [] {
      var p, x := s[..|s| - 1], s[|s| - 1];
      assert s == p + [x];
      DedupOrder(p);
      if x in Dedup(p) {
        OrderExtend(Dedup(p), p, [x]);
      } else {
        OrderAppendNew(Dedup(p), p, x);
      }
    }
  }
}
