/** The keyword tables the extractors consult. A rule pairs a condition on
    the lower-cased transcript with an outcome; an `if`/`elif` chain is a
    first-match lookup in a table of rules, and a run of independent `if`s
    that each `append` is an all-match lookup. */
module Rules {
  import opened Text
  import opened Seqs

  /** `any(k in text_lower for k in words)`,
      `all(k in text_lower for k in words)`, or a test that does not look at
      the text at all (its outcome fixed by the caller). */
  datatype Condition = AnyOf(words: seq<string>) | AllOf(words: seq<string>) | Given(b: bool)

  datatype Rule = Rule(when: Condition, outcome: string)

  predicate Holds(c: Condition, lower: string) {
    match c
    case AnyOf(ws) => exists i :: 0 <= i < |ws| && Contains(lower, ws[i])
    case AllOf(ws) => forall i :: 0 <= i < |ws| ==> Contains(lower, ws[i])
    case Given(b) => b
  }

  /** A one-word `any` is the plain substring test. */
  lemma HoldsSingle(w: string, lower: string)
    ensures Holds(AnyOf([w]), lower) <==> Contains(lower, w)
  {
    if Contains(lower, w) {
      assert [w][0] == w;
    }
  }

  lemma HoldsAnyOfThree(a: string, b: string, c: string, lower: string)
    ensures Holds(AnyOf([a, b, c]), lower) <==> Contains(lower, a) || Contains(lower, b) || Contains(lower, c)
  {
    if Contains(lower, a) { assert [a, b, c][0] == a; }
    if Contains(lower, b) { assert [a, b, c][1] == b; }
    if Contains(lower, c) { assert [a, b, c][2] == c; }
  }

  lemma HoldsAnyOfFour(a: string, b: string, c: string, d: string, lower: string)
    ensures Holds(AnyOf([a, b, c, d]), lower) <==>
      Contains(lower, a) || Contains(lower, b) || Contains(lower, c) || Contains(lower, d)
  {
    if Contains(lower, a) { assert [a, b, c, d][0] == a; }
    if Contains(lower, b) { assert [a, b, c, d][1] == b; }
    if Contains(lower, c) { assert [a, b, c, d][2] == c; }
    if Contains(lower, d) { assert [a, b, c, d][3] == d; }
  }

  lemma HoldsAllOfTwo(a: string, b: string, lower: string)
    ensures Holds(AllOf([a, b]), lower) <==> Contains(lower, a) && Contains(lower, b)
  {
    assert [a, b][0] == a && [a, b][1] == b;
  }

  function Outcomes(rules: seq<Rule>): (r: seq<string>)
    ensures |r| == |rules|
    ensures forall k :: 0 <= k < |rules| ==> r[k] == rules[k].outcome
  {
    seq(|rules|, k requires 0 <= k < |rules| => rules[k].outcome)
  }

  /** The value an `if`/`elif` chain over `rules` assigns: the outcome of the
      first rule whose condition holds, or `default` when none holds. */
  function FirstMatch(rules: seq<Rule>, lower: string, default: string): (r: string)
    ensures (forall k :: 0 <= k < |rules| ==> !Holds(rules[k].when, lower)) ==> r == default
    ensures forall k :: 0 <= k < |rules| && Holds(rules[k].when, lower)
                        && (forall j :: 0 <= j < k ==> !Holds(rules[j].when, lower))
                        ==> r == rules[k].outcome
  {
    if rules == [] then default
    else if Holds(rules[0].when, lower) then rules[0].outcome
    else
      assert forall k :: 1 <= k < |rules| ==> rules[1..][k - 1] == rules[k];
      FirstMatch(rules[1..], lower, default)
  }

  /** The list a run of independent `if cond: result.append(outcome)`
      statements builds: the outcomes of the rules whose conditions hold, in
      table order. */
  function AllMatches(rules: seq<Rule>, lower: string): (r: seq<string>)
    ensures |r| <= |rules|
  {
    if rules == [] then []
    else
      var last := rules[|rules| - 1];
      AllMatches(rules[..|rules| - 1], lower) + (if Holds(last.when, lower) then [last.outcome] else [])
  }

  /** The all-match list holds exactly the outcomes of the rules that hold. */
  lemma {:induction false} AllMatchesMembership(rules: seq<Rule>, lower: string)
    ensures forall x :: x in AllMatches(rules, lower) <==>
      exists k :: 0 <= k < |rules| && Holds(rules[k].when, lower) && rules[k].outcome == x
  {
    if rules != [] {
      var p := rules[..|rules| - 1];
      AllMatchesMembership(p, lower);
      assert forall k :: 0 <= k < |p| ==> p[k] == rules[k];
    }
  }

  /** When no rule of the chain yields the default, the default comes out
      exactly when no rule holds, and otherwise one of the rules' outcomes. */
  lemma {:induction false} FirstMatchDefault(rules: seq<Rule>, lower: string, default: string)
    requires default !in Outcomes(rules)
    ensures FirstMatch(rules, lower, default) == default <==>
      forall k :: 0 <= k < |rules| ==> !Holds(rules[k].when, lower)
    ensures FirstMatch(rules, lower, default) == default ||
      FirstMatch(rules, lower, default) in Outcomes(rules)
  {
    if rules == [] {
    } else if Holds(rules[0].when, lower) {
      assert Outcomes(rules)[0] == rules[0].outcome;
    } else {
      var tail := rules[1..];
      FirstMatchDefault(tail, lower, default) by {
        assert Outcomes(tail) == Outcomes(rules)[1..];
      }
      assert FirstMatch(rules, lower, default) == FirstMatch(tail, lower, default);
      assert (forall k :: 0 <= k < |rules| ==> !Holds(rules[k].when, lower)) <==>
             (forall k :: 0 <= k < |tail| ==> !Holds(tail[k].when, lower)) by {
        assert forall k :: 1 <= k < |rules| ==> tail[k - 1] == rules[k];
      }
      assert Outcomes(tail) == Outcomes(rules)[1..];
    }
  }

  /** One more rule of the run: its outcome is appended when it holds. */
  lemma AllMatchesStep(rules: seq<Rule>, k: nat, lower: string)
    requires k < |rules|
    ensures AllMatches(rules[..k + 1], lower) ==
      AllMatches(rules[..k], lower) + (if Holds(rules[k].when, lower) then [rules[k].outcome] else [])
  {
    assert rules[..k + 1][..k] == rules[..k];
  }

  /** A rule added at the end of the run appends its outcome when it holds. */
  lemma AllMatchesSnoc(rules: seq<Rule>, r: Rule, lower: string)
    ensures AllMatches(rules + [r], lower) ==
      AllMatches(rules, lower) + (if Holds(r.when, lower) then [r.outcome] else [])
  {
    assert (rules + [r])[..|rules|] == rules;
  }

  /** One `if condition: result.append(outcome)` of a run that has so far
      tried the rules `done`. */
  lemma AppendStep(done: seq<Rule>, r: Rule, lower: string, before: seq<string>, after: seq<string>)
    requires before == AllMatches(done, lower)
    requires after == if Holds(r.when, lower) then before + [r.outcome] else before
    ensures after == AllMatches(done + [r], lower)
  {
    AllMatchesSnoc(done, r, lower);
  }

  /** With pairwise distinct outcomes in the table, the matched outcomes are
      pairwise distinct and appear in table order. */
  lemma {:induction false} AllMatchesOrder(rules: seq<Rule>, lower: string)
    requires NoDuplicates(Outcomes(rules))
    ensures NoDuplicates(AllMatches(rules, lower))
    ensures InFirstOccurrenceOrder(AllMatches(rules, lower), Outcomes(rules))
  {
    if rules != [] {
      var n := |rules| - 1;
      var p, last := rules[..n], rules[n];
      var ls, lp := Outcomes(rules), Outcomes(p);
      assert ls == lp + [last.outcome];
      assert NoDuplicates(lp) by {
        forall i, j | 0 <= i < j < |lp| ensures lp[i] != lp[j] {
          assert lp[i] == ls[i] && lp[j] == ls[j];
        }
      }
      AllMatchesOrder(p, lower);
      AllMatchesMembership(p, lower);
      var m := AllMatches(p, lower);
      if Holds(last.when, lower) {
        assert last.outcome !in lp by {
          forall k | 0 <= k < n ensures lp[k] != last.outcome {
            assert ls[k] == lp[k] && ls[n] == last.outcome;
          }
        }
        OrderAppendNew(m, lp, last.outcome);
        assert NoDuplicates(m + [last.outcome]) by {
          assert last.outcome !in m;
        }
      } else {
        OrderExtend(m, lp, [last.outcome]);
      }
    }
  }

  /** No rule holds: nothing is appended. */
  lemma {:induction false} AllMatchesNone(rules: seq<Rule>, lower: string)
    requires forall k :: 0 <= k < |rules| ==> !Holds(rules[k].when, lower)
    ensures AllMatches(rules, lower) == []
  {
    if rules != [] {
      var p := rules[..|rules| - 1];
      assert forall k :: 0 <= k < |p| ==> p[k] == rules[k];
      AllMatchesNone(p, lower);
    }
  }

  /** `result if result else default` */
  function OrDefault(s: seq<string>, default: seq<string>): (r: seq<string>)
    ensures default != [] ==> r != []
    ensures s != [] ==> r == s
    ensures s == [] ==> r == default
  {
    if s == [] then default else s
  }

  /** The list a run of appends builds, replaced by `default` when empty. */
  function Collected(rules: seq<Rule>, lower: string, default: seq<string>): seq<string> {
    OrDefault(AllMatches(rules, lower), default)
  }

  /** With distinct outcomes and a distinct, non-empty default: the list is
      never empty and has no repeats; when some rule holds it holds exactly
      the outcomes of the rules that hold, in table order; otherwise it is
      the default. */
  lemma CollectedProperties(rules: seq<Rule>, lower: string, default: seq<string>)
    requires NoDuplicates(Outcomes(rules)) && NoDuplicates(default) && default != []
    ensures Collected(rules, lower, default) != []
    ensures NoDuplicates(Collected(rules, lower, default))
    ensures (exists k :: 0 <= k < |rules| && Holds(rules[k].when, lower)) ==>
      |Collected(rules, lower, default)| <= |rules|
      && (forall x :: x in Collected(rules, lower, default) <==>
            exists k :: 0 <= k < |rules| && Holds(rules[k].when, lower) && rules[k].outcome == x)
      && InFirstOccurrenceOrder(Collected(rules, lower, default), Outcomes(rules))
    ensures (forall k :: 0 <= k < |rules| ==> !Holds(rules[k].when, lower)) ==>
      Collected(rules, lower, default) == default
  {
    AllMatchesOrder(rules, lower);
    AllMatchesMembership(rules, lower);
    var m := AllMatches(rules, lower);
    if exists k :: 0 <= k < |rules| && Holds(rules[k].when, lower) {
      var k :| 0 <= k < |rules| && Holds(rules[k].when, lower);
      assert rules[k].outcome in m;
    } else {
      AllMatchesNone(rules, lower);
    }
  }
}
