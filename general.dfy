/** The general extractor (`generate_general_analysis`): a conversation
    title, the participants, the action items, categories, priorities, the
    fixed next steps and a timeline bucket. */
module GeneralAnalysis {
  import opened Text
  import opened Seqs
  import opened Rules
  import Speakers

  // ---------------------------------------------------------------------
  // Conversation title: an if/elif chain, first match wins.

  const DefaultTitle := "General Discussion"

  const TitleRules: seq<Rule> := [
    Rule(AnyOf(["meeting", "agenda", "minutes"]), "Team Meeting"),
    Rule(AnyOf(["event", "party", "celebration", "wedding"]), "Event Planning"),
    Rule(AnyOf(["business", "strategy", "plan", "goals"]), "Business Planning"),
    Rule(AnyOf(["project", "task", "deadline"]), "Project Discussion"),
    Rule(AnyOf(["budget", "finance", "cost", "money"]), "Financial Planning"),
    Rule(AnyOf(["travel", "trip", "vacation"]), "Travel Planning")
  ]

  function ConversationTitle(lower: string): string {
    FirstMatch(TitleRules, lower, DefaultTitle)
  }

  /** The title is "General Discussion" exactly when no keyword of the chain
      occurs, otherwise the title of the first rule that fires. */
  lemma ConversationTitleProperties(lower: string)
    ensures ConversationTitle(lower) == DefaultTitle <==>
      forall k :: 0 <= k < |TitleRules| ==> !Holds(TitleRules[k].when, lower)
    ensures ConversationTitle(lower) == DefaultTitle || ConversationTitle(lower) in Outcomes(TitleRules)
    ensures forall k :: 0 <= k < |TitleRules| && Holds(TitleRules[k].when, lower)
                        && (forall j :: 0 <= j < k ==> !Holds(TitleRules[j].when, lower))
                        ==> ConversationTitle(lower) == TitleRules[k].outcome
  {
    FirstMatchDefault(TitleRules, lower, DefaultTitle);
  }

  /** "Let's plan the retreat": the bare word "plan" is enough for "Business
      Planning" once the meeting and event rules have not fired. */
  lemma PlanMeansBusiness(lower: string)
    requires !Contains(lower, "meeting") && !Contains(lower, "agenda") && !Contains(lower, "minutes")
    requires !Contains(lower, "event") && !Contains(lower, "party")
    requires !Contains(lower, "celebration") && !Contains(lower, "wedding")
    requires Contains(lower, "plan")
    ensures ConversationTitle(lower) == "Business Planning"
  {
    HoldsAnyOfThree("meeting", "agenda", "minutes", lower);
    HoldsAnyOfFour("event", "party", "celebration", "wedding", lower);
    HoldsAnyOfFour("business", "strategy", "plan", "goals", lower);
    assert TitleRules[1..][1..][0] == TitleRules[2];
  }

  // ---------------------------------------------------------------------
  // Action items: the lines that mention an action, label removed.

  const ActionKeywords: seq<string> := [
    "need to", "should", "must", "have to", "will", "going to", "plan to",
    "decide", "contact", "call", "email", "schedule", "book", "order", "buy",
    "prepare", "organize", "arrange"
  ]

  /** `any(keyword in line.lower() for keyword in action_keywords)` */
  predicate MentionsAction(line: string) {
    exists k :: 0 <= k < |ActionKeywords| && Contains(Lower(line), ActionKeywords[k])
  }

  /** `re.sub(r'^[^:]*:', '', line)`: everything through the first colon
      goes; a line without a colon is unchanged. */
  function AfterLabel(line: string): (r: string)
    ensures ':' !in line ==> r == line
    ensures ':' in line ==> exists k :: 0 <= k < |line| && line[k] == ':' && ':' !in line[..k] && r == line[k + 1..]
  {
    match FindChar(line, ':')
    case Some(k) => line[k + 1..]
    case None => line
  }

  /** The action a line states: its text after the label, stripped. */
  function ActionText(line: string): string {
    Strip(AfterLabel(line))
  }

  /** The action item a line yields, if any: its action text, when the
      line mentions an action and that text is longer than 10 and shorter
      than 200 characters. */
  function ActionOf(line: string): Option<string> {
    if MentionsAction(line) && 10 < |ActionText(line)| < 200 then Some(ActionText(line)) else None
  }

  /** The item each line yields, line by line. */
  function LineActions(lines: seq<string>): (r: seq<Option<string>>)
    ensures |r| == |lines|
    ensures forall i :: 0 <= i < |lines| ==> r[i] == ActionOf(lines[i])
  {
    seq(|lines|, i requires 0 <= i < |lines| => ActionOf(lines[i]))
  }

  /** The values present in `xs`, in order. */
  function Present(xs: seq<Option<string>>): (r: seq<string>)
    ensures |r| <= |xs|
  {
    if xs == [] then []
    else Present(xs[..|xs| - 1]) + (match xs[|xs| - 1] case Some(x) => [x] case None => [])
  }

  lemma {:induction false} PresentMembership(xs: seq<Option<string>>)
    ensures forall x :: x in Present(xs) <==> exists i :: 0 <= i < |xs| && xs[i] == Some(x)
  {
    if xs != [] {
      var p := xs[..|xs| - 1];
      PresentMembership(p);
      assert forall i :: 0 <= i < |p| ==> p[i] == xs[i];
    }
  }

  lemma {:induction false} PresentAppend(a: seq<Option<string>>, b: seq<Option<string>>)
    ensures Present(a + b) == Present(a) + Present(b)
    decreases |b|
  {
    if b != [] {
      var n := |b| - 1;
      assert (a + b)[..|a + b| - 1] == a + b[..n];
      PresentAppend(a, b[..n]);
    } else {
      assert a + b == a;
    }
  }

  /** One more entry: its value, if any, follows the earlier ones. */
  lemma PresentStep(xs: seq<Option<string>>, i: nat, before: seq<string>, after: seq<string>)
    requires i < |xs| && before == Present(xs[..i])
    requires after == before + match xs[i] case Some(x) => [x] case None => []
    ensures after == Present(xs[..i + 1])
  {
    assert xs[..i + 1][..i] == xs[..i];
  }

  /** The action items of `lines` in line order, before any default. */
  function ActionCandidates(lines: seq<string>): seq<string> {
    Present(LineActions(lines))
  }

  /** The candidates of two runs of lines are those of each run, in order. */
  lemma ActionCandidatesAppend(a: seq<string>, b: seq<string>)
    ensures ActionCandidates(a + b) == ActionCandidates(a) + ActionCandidates(b)
  {
    forall i | 0 <= i < |a + b| ensures LineActions(a + b)[i] == (LineActions(a) + LineActions(b))[i] {
      if i < |a| {
        assert (a + b)[i] == a[i];
      } else {
        assert (a + b)[i] == b[i - |a|];
      }
    }
    assert LineActions(a + b) == LineActions(a) + LineActions(b);
    PresentAppend(LineActions(a), LineActions(b));
  }

  /** Every item is the action text of a line that mentions an action, and
      is between 11 and 199 characters long; and every such line gives its
      item. */
  lemma ActionCandidatesMembership(lines: seq<string>)
    ensures forall x :: x in ActionCandidates(lines) <==>
      exists i :: 0 <= i < |lines| && MentionsAction(lines[i]) && ActionText(lines[i]) == x
                  && 10 < |x| < 200
  {
    PresentMembership(LineActions(lines));
  }

  /** The action loop of app.py. */
  method ExtractActionItems(lines: seq<string>) returns (items: seq<string>)
    ensures items == ActionCandidates(lines)
  {
    items := [];
    ghost var all := LineActions(lines);
    for i := 0 to |lines|
      invariant items == Present(all[..i])
    {
      ghost var before := items;
      var line := lines[i];
      if MentionsAction(line) {
        var action := Strip(AfterLabel(line));
        if |action| > 10 && |action| < 200 {
          items := items + [action];
        }
      }
      PresentStep(all, i, before, items);
    }
    assert all[..|lines|] == all;
  }

  const DefaultActions: seq<string> := [
    "Follow up on discussed topics",
    "Schedule next meeting or check-in",
    "Review and confirm decisions made",
    "Prepare materials for next steps",
    "Communicate updates to relevant parties"
  ]

  /** The action items after the fallback to the five generic ones. */
  function ActionItems(lines: seq<string>): seq<string> {
    OrDefault(ActionCandidates(lines), DefaultActions)
  }

  /** `items[:10]` */
  function FirstTen(items: seq<string>): (r: seq<string>)
    ensures |r| == if |items| <= 10 then |items| else 10
    ensures r == items[..|r|]
  {
    if |items| <= 10 then items else items[..10]
  }

  /** The timeline bucket from the number of action items. */
  function TimelineBucket(n: nat): (r: string)
    ensures n > 10 ==> r == "3-4 weeks"
    ensures 5 < n <= 10 ==> r == "2-3 weeks"
    ensures n <= 5 ==> r == "1-2 weeks"
  {
    if n > 10 then "3-4 weeks" else if n > 5 then "2-3 weeks" else "1-2 weeks"
  }

  /** The timeline grows with the number of action items. */
  lemma TimelineBucketMonotone(a: nat, b: nat)
    requires a <= b
    ensures TimelineBucket(a) == "3-4 weeks" ==> TimelineBucket(b) == "3-4 weeks"
    ensures TimelineBucket(b) == "1-2 weeks" ==> TimelineBucket(a) == "1-2 weeks"
  {
  }

  // ---------------------------------------------------------------------
  // Categories and priorities: independent ifs, each appending one label.

  const CommunicationRule := Rule(AnyOf(["meeting", "call", "discuss"]), "Communication")
  const PlanningRule := Rule(AnyOf(["plan", "organize", "schedule"]), "Planning")
  const ResearchRule := Rule(AnyOf(["research", "find", "look up"]), "Research")
  const ProcurementRule := Rule(AnyOf(["buy", "order", "purchase"]), "Procurement")
  const PreparationRule := Rule(AnyOf(["prepare", "create", "make"]), "Preparation")
  const ReviewRule := Rule(AnyOf(["review", "check", "verify"]), "Review")

  const CategoryRules: seq<Rule> :=
    [CommunicationRule, PlanningRule, ResearchRule, ProcurementRule, PreparationRule, ReviewRule]

  const DefaultCategories: seq<string> := ["General Tasks", "Follow-up"]

  function Categories(lower: string): seq<string> {
    Collected(CategoryRules, lower, DefaultCategories)
  }

  method CollectCategories(lower: string) returns (categories: seq<string>)
    ensures categories == Categories(lower)
  {
    categories := [];
    ghost var done: seq<Rule> := [];
    ghost var before := categories;
    if Holds(CommunicationRule.when, lower) {
      categories := categories + [CommunicationRule.outcome];
    }
    AppendStep(done, CommunicationRule, lower, before, categories);
    done, before := done + [CommunicationRule], categories;
    if Holds(PlanningRule.when, lower) {
      categories := categories + [PlanningRule.outcome];
    }
    AppendStep(done, PlanningRule, lower, before, categories);
    done, before := done + [PlanningRule], categories;
    if Holds(ResearchRule.when, lower) {
      categories := categories + [ResearchRule.outcome];
    }
    AppendStep(done, ResearchRule, lower, before, categories);
    done, before := done + [ResearchRule], categories;
    if Holds(ProcurementRule.when, lower) {
      categories := categories + [ProcurementRule.outcome];
    }
    AppendStep(done, ProcurementRule, lower, before, categories);
    done, before := done + [ProcurementRule], categories;
    if Holds(PreparationRule.when, lower) {
      categories := categories + [PreparationRule.outcome];
    }
    AppendStep(done, PreparationRule, lower, before, categories);
    done, before := done + [PreparationRule], categories;
    if Holds(ReviewRule.when, lower) {
      categories := categories + [ReviewRule.outcome];
    }
    AppendStep(done, ReviewRule, lower, before, categories);
    done, before := done + [ReviewRule], categories;
    assert done == CategoryRules;
    if categories == [] {
      categories := DefaultCategories;
    }
  }

  /** Never empty and without repeats; the labels of the rules that fire
      in rule order, or "General Tasks" and "Follow-up" when none fires. */
  lemma CategoriesProperties(lower: string)
    ensures Categories(lower) != [] && NoDuplicates(Categories(lower))
    ensures (exists k :: 0 <= k < 6 && Holds(CategoryRules[k].when, lower)) ==>
      (forall x :: x in Categories(lower) <==>
         exists k :: 0 <= k < 6 && Holds(CategoryRules[k].when, lower) && CategoryRules[k].outcome == x)
      && InFirstOccurrenceOrder(Categories(lower), Outcomes(CategoryRules))
    ensures (forall k :: 0 <= k < 6 ==> !Holds(CategoryRules[k].when, lower)) ==>
      Categories(lower) == DefaultCategories
  {
    assert Outcomes(CategoryRules) ==
      ["Communication", "Planning", "Research", "Procurement", "Preparation", "Review"];
    CollectedProperties(CategoryRules, lower, DefaultCategories);
  }

  const UrgentRule := Rule(AnyOf(["urgent", "asap", "immediately", "critical"]),
    "High Priority - Urgent items requiring immediate attention")
  const ImportantRule := Rule(AnyOf(["important", "key", "crucial", "essential"]),
    "Important - Key items for project success")
  const LaterRule := Rule(AnyOf(["later", "eventually", "when possible"]),
    "Low Priority - Items to address when time permits")

  const PriorityRules: seq<Rule> := [UrgentRule, ImportantRule, LaterRule]

  const DefaultPriorities: seq<string> := ["Normal Priority - Standard follow-up items"]

  function Priorities(lower: string): seq<string> {
    Collected(PriorityRules, lower, DefaultPriorities)
  }

  method CollectPriorities(lower: string) returns (priorities: seq<string>)
    ensures priorities == Priorities(lower)
  {
    priorities := [];
    ghost var done: seq<Rule> := [];
    ghost var before := priorities;
    if Holds(UrgentRule.when, lower) {
      priorities := priorities + [UrgentRule.outcome];
    }
    AppendStep(done, UrgentRule, lower, before, priorities);
    done, before := done + [UrgentRule], priorities;
    if Holds(ImportantRule.when, lower) {
      priorities := priorities + [ImportantRule.outcome];
    }
    AppendStep(done, ImportantRule, lower, before, priorities);
    done, before := done + [ImportantRule], priorities;
    if Holds(LaterRule.when, lower) {
      priorities := priorities + [LaterRule.outcome];
    }
    AppendStep(done, LaterRule, lower, before, priorities);
    done, before := done + [LaterRule], priorities;
    assert done == PriorityRules;
    if priorities == [] {
      priorities := DefaultPriorities;
    }
  }

  /** Never empty and without repeats; the labels of the rules that fire in
      rule order, or the normal-priority label when none fires. */
  lemma PrioritiesProperties(lower: string)
    ensures Priorities(lower) != [] && NoDuplicates(Priorities(lower))
    ensures (exists k :: 0 <= k < 3 && Holds(PriorityRules[k].when, lower)) ==>
      (forall x :: x in Priorities(lower) <==>
         exists k :: 0 <= k < 3 && Holds(PriorityRules[k].when, lower) && PriorityRules[k].outcome == x)
      && InFirstOccurrenceOrder(Priorities(lower), Outcomes(PriorityRules))
    ensures (forall k :: 0 <= k < 3 ==> !Holds(PriorityRules[k].when, lower)) ==>
      Priorities(lower) == DefaultPriorities
  {
    assert Outcomes(PriorityRules) == [UrgentRule.outcome, ImportantRule.outcome, LaterRule.outcome];
    CollectedProperties(PriorityRules, lower, DefaultPriorities);
  }

  const NextSteps: seq<string> := [
    "Review all action items and assign responsibilities",
    "Set deadlines for each identified task",
    "Schedule follow-up meeting or check-in",
    "Begin work on highest priority items",
    "Communicate progress to all stakeholders"
  ]

  // ---------------------------------------------------------------------
  // The record.

  datatype GeneralRecord = GeneralRecord(
    conversationTitle: string,
    participants: seq<string>,
    actionItems: seq<string>,
    categories: seq<string>,
    priorities: seq<string>,
    nextSteps: seq<string>,
    timeline: string)

  const DefaultParticipants: seq<string> := ["Participant 1", "Participant 2"]

  /** `participants if participants else ["Participant 1", "Participant 2"]` */
  function Participants(speakers: seq<string>): seq<string> {
    OrDefault(speakers, DefaultParticipants)
  }

  /** The record `generate_general_analysis(text)` returns (its constant
      `"type": "general"` field is the router's tag). */
  function GeneralReport(text: string): GeneralRecord {
    var lower := Lower(text);
    var lines := Lines(text);
    var items := ActionItems(lines);
    GeneralRecord(
      ConversationTitle(lower),
      Participants(Speakers.Speakers(lines)),
      FirstTen(items),
      Categories(lower),
      Priorities(lower),
      NextSteps,
      TimelineBucket(|items|))
  }

  method GenerateGeneralAnalysis(text: string) returns (r: GeneralRecord)
    ensures r == GeneralReport(text)
  {
    var lines := Lines(text);
    var participants := Speakers.ExtractSpeakers(lines);
    var lower := Lower(text);
    var title := ConversationTitle(lower);
    var actionItems := ExtractActionItems(lines);
    if actionItems == [] {
      actionItems := DefaultActions;
    }
    var categories := CollectCategories(lower);
    var priorities := CollectPriorities(lower);
    var timeline := "1-2 weeks";
    if |actionItems| > 10 {
      timeline := "3-4 weeks";
    } else if |actionItems| > 5 {
      timeline := "2-3 weeks";
    }
    r := GeneralRecord(title, if participants != [] then participants else DefaultParticipants,
                       FirstTen(actionItems), categories, priorities, NextSteps, timeline);
  }

  /** The participants are never empty and have no repeats: the speakers
      extracted from the lines when there are any, otherwise "Participant 1"
      and "Participant 2". */
  lemma ParticipantsProperties(lines: seq<string>)
    ensures Participants(Speakers.Speakers(lines)) != []
    ensures NoDuplicates(Participants(Speakers.Speakers(lines)))
    ensures Speakers.Speakers(lines) != [] ==> Participants(Speakers.Speakers(lines)) == Speakers.Speakers(lines)
    ensures Speakers.Speakers(lines) == [] ==> Participants(Speakers.Speakers(lines)) == DefaultParticipants
  {
    Speakers.SpeakersProperties(lines);
  }

  /** The record lists between one and ten action items, the first ones of
      the defaulted list; the timeline bucket counts the whole defaulted
      list, so more than ten candidates give ten items and "3-4 weeks". */
  lemma ActionItemsInReport(text: string)
    ensures var r := GeneralReport(text);
      var items := ActionItems(Lines(text));
      1 <= |r.actionItems| <= 10 && r.actionItems == items[..|r.actionItems|]
      && (|items| > 10 ==> |r.actionItems| == 10 && r.timeline == "3-4 weeks")
      && (|items| <= 10 ==> r.actionItems == items)
      && (ActionCandidates(Lines(text)) == [] ==> r.actionItems == DefaultActions && r.timeline == "1-2 weeks")
  {
  }

  /** Every list of the record is non-empty; participants, categories and
      priorities are free of repeats. */
  lemma ReportShape(text: string)
    ensures var r := GeneralReport(text);
      && r.participants != [] && NoDuplicates(r.participants)
      && r.actionItems != []
      && r.categories != [] && NoDuplicates(r.categories)
      && r.priorities != [] && NoDuplicates(r.priorities)
      && |r.nextSteps| == 5
  {
    var lower := Lower(text);
    ParticipantsProperties(Lines(text));
    CategoriesProperties(lower);
    PrioritiesProperties(lower);
  }
}
