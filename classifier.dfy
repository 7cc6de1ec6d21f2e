/** The domain classifier (`detect_tech_conversation`): a transcript is
    technical when at least three of a fixed list of keywords occur in its
    lower-cased text as substrings (so "app" also matches inside "happy"). */
module Classifier {
  import opened Text

  const TechKeywords: seq<string> := [
    "app", "application", "software", "development", "code", "programming",
    "database", "api", "website", "web", "mobile", "ios", "android",
    "system", "platform", "server", "cloud", "deployment", "testing",
    "ui", "ux", "frontend", "backend", "framework", "integration",
    "authentication", "security", "scalable", "architecture", "design",
    "requirements", "specifications", "sprint", "agile", "scrum",
    "repository", "git", "version", "build", "deploy", "devops",
    "bug", "feature", "functionality", "performance", "optimization"
  ]

  /** `sum(1 for keyword in ks if keyword in lower)` */
  function KeywordCount(ks: seq<string>, lower: string): nat {
    if ks == [] then 0
    else KeywordCount(ks[..|ks| - 1], lower) + (if Contains(lower, ks[|ks| - 1]) then 1 else 0)
  }

  predicate IsTech(text: string) {
    KeywordCount(TechKeywords, Lower(text)) >= 3
  }

  predicate Increasing(idx: seq<nat>) {
    forall a, b :: 0 <= a < b < |idx| ==> idx[a] < idx[b]
  }

  /** The positions in `ks` of the keywords that occur in `lower`: there are
      exactly as many of them as the count says. */
  function PresentPositions(ks: seq<string>, lower: string): (r: seq<nat>)
    ensures |r| == KeywordCount(ks, lower)
    ensures Increasing(r)
    ensures forall a :: 0 <= a < |r| ==> r[a] < |ks| && Contains(lower, ks[r[a]])
  {
    if ks == [] then []
    else
      var n := |ks| - 1;
      var p := PresentPositions(ks[..n], lower);
      assert forall a :: 0 <= a < |p| ==> ks[..n][p[a]] == ks[p[a]];
      if Contains(lower, ks[n]) then p + [n] else p
  }

  /** Any increasing list of positions of occurring keywords is no longer
      than the count. */
  lemma {:induction false} CountAtLeast(ks: seq<string>, lower: string, idx: seq<nat>)
    requires Increasing(idx)
    requires forall a :: 0 <= a < |idx| ==> idx[a] < |ks| && Contains(lower, ks[idx[a]])
    ensures KeywordCount(ks, lower) >= |idx|
  {
    if idx != [] {
      var n := |ks| - 1;
      var last := idx[|idx| - 1];
      if last == n {
        var rest := idx[..|idx| - 1];
        assert forall a :: 0 <= a < |rest| ==> rest[a] < n && ks[..n][rest[a]] == ks[rest[a]];
        CountAtLeast(ks[..n], lower, rest);
      } else {
        assert forall a :: 0 <= a < |idx| ==> idx[a] <= last < n && ks[..n][idx[a]] == ks[idx[a]];
        CountAtLeast(ks[..n], lower, idx);
      }
    }
  }

  /** Keyword `ks[i]` occurs in `lower`. */
  predicate Occurs(ks: seq<string>, lower: string, i: int) {
    0 <= i < |ks| && Contains(lower, ks[i])
  }

  /** A count of at least three gives three distinct occurring entries. */
  lemma ThreeFromCount(ks: seq<string>, lower: string)
    requires KeywordCount(ks, lower) >= 3
    ensures exists i, j, k :: i < j < k && Occurs(ks, lower, i) && Occurs(ks, lower, j) && Occurs(ks, lower, k)
  {
    var r := PresentPositions(ks, lower);
    assert r[0] < r[1] < r[2];
    assert Occurs(ks, lower, r[0]) && Occurs(ks, lower, r[1]) && Occurs(ks, lower, r[2]);
  }

  /** Three distinct occurring entries give a count of at least three. */
  lemma CountFromThree(ks: seq<string>, lower: string, i: int, j: int, k: int)
    requires i < j < k && Occurs(ks, lower, i) && Occurs(ks, lower, j) && Occurs(ks, lower, k)
    ensures KeywordCount(ks, lower) >= 3
  {
    var idx: seq<nat> := [i, j, k];
    assert Increasing(idx);
    CountAtLeast(ks, lower, idx);
  }

  /** A count of at least three means three distinct list entries occur. */
  lemma CountAtLeastThree(ks: seq<string>, lower: string)
    ensures KeywordCount(ks, lower) >= 3 <==>
      exists i, j, k :: i < j < k && Occurs(ks, lower, i) && Occurs(ks, lower, j) && Occurs(ks, lower, k)
  {
    if KeywordCount(ks, lower) >= 3 {
      ThreeFromCount(ks, lower);
    }
    if exists i, j, k :: i < j < k && Occurs(ks, lower, i) && Occurs(ks, lower, j) && Occurs(ks, lower, k) {
      var i, j, k :| i < j < k && Occurs(ks, lower, i) && Occurs(ks, lower, j) && Occurs(ks, lower, k);
      CountFromThree(ks, lower, i, j, k);
    }
  }

  /** The verdict is "technical" exactly when three distinct entries of the
      keyword list occur in the lower-cased transcript. */
  lemma IsTechIff(text: string)
    ensures IsTech(text) <==>
      exists i, j, k :: i < j < k
        && Occurs(TechKeywords, Lower(text), i)
        && Occurs(TechKeywords, Lower(text), j)
        && Occurs(TechKeywords, Lower(text), k)
  {
    CountAtLeastThree(TechKeywords, Lower(text));
  }

  /** More text can only make more keywords occur. */
  lemma {:induction false} CountMonotone(ks: seq<string>, a: string, b: string)
    requires forall p :: Contains(a, p) ==> Contains(b, p)
    ensures KeywordCount(ks, a) <= KeywordCount(ks, b)
  {
    if ks != [] {
      CountMonotone(ks[..|ks| - 1], a, b);
    }
  }

  /** Adding text before or after a technical transcript keeps it technical. */
  lemma IsTechExtend(text: string, more: string)
    requires IsTech(text)
    ensures IsTech(text + more) && IsTech(more + text)
  {
    LowerAppend(text, more);
    LowerAppend(more, text);
    forall p | Contains(Lower(text), p)
      ensures Contains(Lower(text + more), p) && Contains(Lower(more + text), p)
    {
      ContainsAppend(Lower(text), Lower(more), p);
    }
    CountMonotone(TechKeywords, Lower(text), Lower(text + more));
    CountMonotone(TechKeywords, Lower(text), Lower(more + text));
  }
}
