/** The total-duration estimate of the technical extractor: a base from the
    number of requirements, overridden by the first duration the transcript
    mentions (`(\d+)\s*(week|month|day)s?`, case-insensitive). */
module Timeline {
  import opened Text
  import opened Decimal

  datatype Unit = Week | Month | Day

  /** A regex match: the number and the unit word it was followed by. */
  datatype Mention = Mention(count: nat, unit: Unit)

  /** The end of the run of digits that starts at `i` (`\d+` is greedy). */
  function DigitsEnd(s: string, i: nat): (j: nat)
    requires i <= |s|
    ensures i <= j <= |s| && AllDigits(s[i..j])
    ensures j == |s| || !IsDigit(s[j])
    decreases |s| - i
  {
    if i < |s| && IsDigit(s[i]) then
      var j := DigitsEnd(s, i + 1);
      assert s[i..j] == [s[i]] + s[i + 1..j];
      j
    else i
  }

  /** The end of the run of whitespace that starts at `i` (`\s*`). */
  function SpacesEnd(s: string, i: nat): (k: nat)
    requires i <= |s|
    ensures i <= k <= |s| && forall m :: i <= m < k ==> IsSpace(s[m])
    ensures k == |s| || !IsSpace(s[k])
    decreases |s| - i
  {
    if i < |s| && IsSpace(s[i]) then SpacesEnd(s, i + 1) else i
  }

  /** `word` occurs at `k`, ignoring ASCII case. */
  predicate WordAt(s: string, k: nat, word: string) {
    k + |word| <= |s| && Lower(s[k..k + |word|]) == word
  }

  /** The alternation `(week|month|day)` at `k`. */
  function UnitAt(s: string, k: nat): Option<Unit> {
    if WordAt(s, k, "week") then Some(Week)
    else if WordAt(s, k, "month") then Some(Month)
    else if WordAt(s, k, "day") then Some(Day)
    else None
  }

  /** The match of the pattern that starts at `i`, if any. Giving digits
      back to `\d+` or whitespace back to `\s*` never helps the unit word,
      which starts with a letter, so only the greedy split is tried. */
  function MentionAt(s: string, i: nat): Option<Mention>
    requires i <= |s|
  {
    if i < |s| && IsDigit(s[i]) then
      var j := DigitsEnd(s, i);
      match UnitAt(s, SpacesEnd(s, j))
      case Some(u) => Some(Mention(Value(s[i..j]), u))
      case None => None
    else None
  }

  /** `re.findall(...)[0]` searching from `from`: the leftmost match. */
  function FirstMention(s: string, from: nat): (r: Option<Mention>)
    requires from <= |s|
    ensures r.None? ==> forall i :: from <= i <= |s| ==> MentionAt(s, i).None?
    ensures r.Some? ==> exists i :: from <= i < |s| && MentionAt(s, i) == r
                          && forall j :: from <= j < i ==> MentionAt(s, j).None?
    decreases |s| - from
  {
    if from == |s| then None
    else if MentionAt(s, from).Some? then MentionAt(s, from)
    else FirstMention(s, from + 1)
  }

  /** The base estimate from the number of requirements. */
  function BaseWeeks(complexity: nat): (w: nat)
    ensures complexity <= 5 ==> w == 8
    ensures 5 < complexity <= 7 ==> w == 10
    ensures 7 < complexity <= 10 ==> w == 12
    ensures complexity > 10 ==> w == 16
  {
    if complexity > 10 then 16
    else if complexity > 7 then 12
    else if complexity > 5 then 10
    else 8
  }

  /** The total: a mentioned month count times four, a mentioned week count
      as it is, and the base estimate otherwise (also when the first mention
      is in days, for which app.py has no conversion). */
  function Weeks(complexity: nat, text: string): nat {
    match FirstMention(text, 0)
    case Some(Mention(n, Month)) => 4 * n
    case Some(Mention(n, Week)) => n
    case _ => BaseWeeks(complexity)
  }

  /** The step-by-step reassignment of `total_weeks` in app.py. */
  method TotalWeeks(complexity: nat, text: string) returns (total: nat)
    ensures total == Weeks(complexity, text)
  {
    total := 8;
    if complexity > 10 {
      total := 16;
    } else if complexity > 7 {
      total := 12;
    } else if complexity > 5 {
      total := 10;
    }
    var found := FirstMention(text, 0);
    if found.Some? {
      var value, unit := found.value.count, found.value.unit;
      if unit == Month {
        total := value * 4;
      } else if unit == Week {
        total := value;
      }
    }
  }

  /** More requirements never shorten the base estimate. */
  lemma BaseWeeksMonotone(a: nat, b: nat)
    requires a <= b
    ensures BaseWeeks(a) <= BaseWeeks(b)
  {
  }

  /** The leftmost match is the first position from which the pattern
      matches. */
  lemma {:induction false} FirstMentionIs(s: string, from: nat, b: nat)
    requires from <= b < |s| && MentionAt(s, b).Some?
    requires forall j :: from <= j < b ==> MentionAt(s, j).None?
    ensures FirstMention(s, from) == MentionAt(s, b)
    decreases b - from
  {
    if from < b {
      FirstMentionIs(s, from + 1, b);
    }
  }

  /** The word "month" at `k` is the unit month ("mont" is no "week"). */
  lemma MonthAt(s: string, k: nat)
    requires k + 5 <= |s| && s[k..k + 5] == "month"
    ensures UnitAt(s, k) == Some(Month)
  {
    var w := s[k..k + 5];
    forall m | 0 <= m < 4 ensures s[k + m] == "mont"[m] {
      assert s[k + m] == w[m];
    }
    assert s[k..k + 4] == "mont";
    assert Lower("mont") == "mont";
    assert Lower("month") == "month";
  }

  /** "3 months" at `b` matches as three months. */
  lemma ThreeMonthsAt(s: string, b: nat)
    requires b + 8 <= |s| && s[b..b + 8] == "3 months"
    ensures MentionAt(s, b) == Some(Mention(3, Month))
  {
    var w := s[b..b + 8];
    assert s[b] == w[0] == '3' && s[b + 1] == w[1] == ' ' && s[b + 2] == w[2] == 'm';
    assert DigitsEnd(s, b + 1) == b + 1;
    assert SpacesEnd(s, b + 1) == b + 2;
    forall m | 0 <= m < 5 ensures s[b + 2 + m] == "month"[m] {
      assert s[b + 2 + m] == w[2 + m];
    }
    assert s[b + 2..b + 7] == "month";
    MonthAt(s, b + 2);
    assert s[b..b + 1] == w[..1] == "3";
    assert Value("3") == 3 by {
      assert "3"[..0] == [];
    }
  }

  /** "... will take 3 months ...": after text without digits, a mention of
      three months fixes the total at 12 weeks whatever the requirements. */
  lemma ThreeMonths(before: string, after: string, complexity: nat)
    requires forall i :: 0 <= i < |before| ==> !IsDigit(before[i])
    ensures Weeks(complexity, before + "3 months" + after) == 12
  {
    var s := before + "3 months" + after;
    var b := |before|;
    forall i | 0 <= i < b ensures MentionAt(s, i).None? {
      assert s[i] == before[i];
    }
    assert s[b..b + 8] == "3 months";
    ThreeMonthsAt(s, b);
    FirstMentionIs(s, 0, b);
  }
}
