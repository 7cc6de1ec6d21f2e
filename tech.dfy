/** The technical extractor (`generate_tech_analysis`): a project title, the
    stakeholders, the requirements, a total in weeks, the five-phase plan
    and the risk factors of a transcript. */
module TechAnalysis {
  import opened Text
  import opened Seqs
  import opened Rules
  import opened Decimal
  import Speakers
  import Timeline
  import Phases

  // ---------------------------------------------------------------------
  // Project title: an if/elif chain, first match wins.

  const DefaultTitle := "Digital Project"

  const TitleRules: seq<Rule> := [
    Rule(AnyOf(["mobile app", "ios", "android"]), "Mobile Application Development"),
    Rule(AnyOf(["website", "web app", "e-commerce"]), "Web Platform Development"),
    Rule(AnyOf(["crm", "customer relationship"]), "CRM System Implementation"),
    Rule(AnyOf(["dashboard", "analytics"]), "Analytics Dashboard Development"),
    Rule(AnyOf(["api", "integration"]), "System Integration Project"),
    Rule(AnyOf(["database", "data"]), "Data Management System")
  ]

  function ProjectTitle(lower: string): string {
    FirstMatch(TitleRules, lower, DefaultTitle)
  }

  /** The title is "Digital Project" exactly when no keyword of the chain
      occurs, otherwise the title of the first rule that fires. */
  lemma ProjectTitleProperties(lower: string)
    ensures ProjectTitle(lower) == DefaultTitle <==>
      forall k :: 0 <= k < |TitleRules| ==> !Holds(TitleRules[k].when, lower)
    ensures ProjectTitle(lower) == DefaultTitle || ProjectTitle(lower) in Outcomes(TitleRules)
    ensures forall k :: 0 <= k < |TitleRules| && Holds(TitleRules[k].when, lower)
                        && (forall j :: 0 <= j < k ==> !Holds(TitleRules[j].when, lower))
                        ==> ProjectTitle(lower) == TitleRules[k].outcome
  {
    FirstMatchDefault(TitleRules, lower, DefaultTitle);
  }

  /** A mention of "ios" wins over anything later in the chain. */
  lemma IosMeansMobile(lower: string)
    requires Contains(lower, "ios")
    ensures ProjectTitle(lower) == "Mobile Application Development"
  {
    assert Holds(TitleRules[0].when, lower) by {
      assert TitleRules[0].when.words[1] == "ios";
    }
  }

  // ---------------------------------------------------------------------
  // Requirements: the lexicon walked in order, with a fixed default.

  const RequirementKeywords: seq<string> := [
    "mobile", "ios", "android", "web", "database", "api", "authentication",
    "payment", "dashboard", "reporting", "user management", "notification",
    "search", "integration", "security", "responsive", "real-time", "cloud",
    "backup", "scalable"
  ]

  const RequirementSentences: seq<string> := [
    "Mobile application development",
    "iOS platform support",
    "Android platform support",
    "Web platform development",
    "Database design and implementation",
    "API development and integration",
    "User authentication system",
    "Payment processing integration",
    "Administrative dashboard",
    "Reporting and analytics features",
    "User management system",
    "Notification system",
    "Search functionality",
    "Third-party system integration",
    "Security implementation",
    "Responsive design",
    "Real-time data processing",
    "Cloud infrastructure setup",
    "Data backup and recovery",
    "Scalable architecture design"
  ]

  /** The lexicon as a rule table: sentence `k` when keyword `k` occurs. */
  function RequirementLexicon(): (r: seq<Rule>)
    ensures |r| == |RequirementKeywords| == 20
    ensures Outcomes(r) == RequirementSentences
    ensures forall k, lower :: 0 <= k < |r| ==>
      (Holds(r[k].when, lower) <==> Contains(lower, RequirementKeywords[k]))
  {
    assert |RequirementSentences| == 20;
    var r := seq(20, k requires 0 <= k < 20 => Rule(AnyOf([RequirementKeywords[k]]), RequirementSentences[k]));
    assert forall k, lower :: 0 <= k < 20 ==>
      (Holds(r[k].when, lower) <==> Contains(lower, RequirementKeywords[k])) by {
      forall k, lower | 0 <= k < 20
        ensures Holds(r[k].when, lower) <==> Contains(lower, RequirementKeywords[k])
      {
        HoldsSingle(RequirementKeywords[k], lower);
      }
    }
    r
  }

  const DefaultRequirements: seq<string> := [
    "System architecture design",
    "User interface development",
    "Database implementation",
    "Testing and quality assurance"
  ]

  /** A proof device with no counterpart in app.py: a number built from a
      sentence's length and its first two characters. The twenty sentences
      have twenty different numbers, which is a cheap way to show that the
      sentences themselves are pairwise distinct. */
  function Signature(x: string): nat {
    if |x| < 2 then 0 else |x| * 65536 + (x[0] as nat) * 256 + x[1] as nat
  }

  /** `Signature` of each requirement sentence, in lexicon order; used only
      by the distinctness proof. */
  const SentenceSignatures: seq<nat> := [
    1985903, 1337679, 1589614, 1595237, 2245729, 2048336, 1725811, 1986657, 1589604, 2118245,
    1463667, 1265263, 1332069, 1987688, 1528677, 1135205, 1659493, 1721196, 1590369, 1856355]

  lemma SignaturesFirstHalf()
    ensures forall i :: 0 <= i < 10 ==> Signature(RequirementSentences[i]) == SentenceSignatures[i]
  {
    forall i | 0 <= i < 10 ensures Signature(RequirementSentences[i]) == SentenceSignatures[i] {
      if i == 0 {} else if i == 1 {} else if i == 2 {} else if i == 3 {} else if i == 4 {} else if i == 5 {} else if i == 6 {} else if i == 7 {} else if i == 8 {} else if i == 9 {}
    }
  }

  lemma SignaturesSecondHalf()
    ensures forall i :: 10 <= i < 20 ==> Signature(RequirementSentences[i]) == SentenceSignatures[i]
  {
    forall i | 10 <= i < 20 ensures Signature(RequirementSentences[i]) == SentenceSignatures[i] {
      if i == 10 {} else if i == 11 {} else if i == 12 {} else if i == 13 {} else if i == 14 {} else if i == 15 {} else if i == 16 {} else if i == 17 {} else if i == 18 {} else if i == 19 {}
    }
  }

  /** The twenty sentences are pairwise distinct. */
  lemma SentencesDistinct()
    ensures NoDuplicates(RequirementSentences)
  {
    SignaturesFirstHalf();
    SignaturesSecondHalf();
    SignaturesDistinct();
    forall i, j | 0 <= i < j < 20 ensures RequirementSentences[i] != RequirementSentences[j] {
      assert Signature(RequirementSentences[i]) != Signature(RequirementSentences[j]);
    }
  }

  lemma SignaturesDistinct()
    ensures forall i, j :: 0 <= i < j < 20 ==> SentenceSignatures[i] != SentenceSignatures[j]
  {
    var g := SentenceSignatures;
    forall i, j | 0 <= i < j < 20 ensures g[i] != g[j] {
      if i < 10 {
        if i == 0 {} else if i == 1 {} else if i == 2 {} else if i == 3 {} else if i == 4 {} else if i == 5 {} else if i == 6 {} else if i == 7 {} else if i == 8 {} else {}
      } else {
        if i == 10 {} else if i == 11 {} else if i == 12 {} else if i == 13 {} else if i == 14 {} else if i == 15 {} else if i == 16 {} else if i == 17 {} else if i == 18 {} else {}
      }
    }
  }

  function Requirements(lower: string): seq<string> {
    Collected(RequirementLexicon(), lower, DefaultRequirements)
  }

  /** The requirement loop of app.py: for each lexicon entry in order, append
      its sentence when its keyword occurs and the sentence is not yet
      listed; then fall back to the default list. */
  method CollectRequirements(lower: string) returns (requirements: seq<string>)
    ensures requirements == Requirements(lower)
  {
    var lexicon := RequirementLexicon();
    SentencesDistinct();
    requirements := [];
    for i := 0 to |lexicon|
      invariant requirements == AllMatches(lexicon[..i], lower)
    {
      AllMatchesStep(lexicon, i, lower);
      AllMatchesMembership(lexicon[..i], lower);
      var keyword, requirement := RequirementKeywords[i], RequirementSentences[i];
      assert requirement !in requirements by {
        forall k | 0 <= k < i ensures lexicon[..i][k].outcome != requirement {
          assert lexicon[k].outcome == RequirementSentences[k];
        }
      }
      if Contains(lower, keyword) && requirement !in requirements {
        requirements := requirements + [requirement];
      }
    }
    assert lexicon[..|lexicon|] == lexicon;
    if requirements == [] {
      requirements := DefaultRequirements;
    }
  }

  /** Never empty and without repeats. When some keyword occurs, exactly the
      sentences of the occurring keywords, in lexicon order (so at most
      twenty); otherwise the four-item default. */
  lemma RequirementsProperties(lower: string)
    ensures Requirements(lower) != [] && NoDuplicates(Requirements(lower))
    ensures (exists k :: 0 <= k < 20 && Contains(lower, RequirementKeywords[k])) ==>
      |Requirements(lower)| <= 20
      && (forall x :: x in Requirements(lower) <==>
            exists k :: 0 <= k < 20 && Contains(lower, RequirementKeywords[k]) && RequirementSentences[k] == x)
      && InFirstOccurrenceOrder(Requirements(lower), RequirementSentences)
    ensures (forall k :: 0 <= k < 20 ==> !Contains(lower, RequirementKeywords[k])) ==>
      Requirements(lower) == DefaultRequirements
  {
    SentencesDistinct();
    assert NoDuplicates(DefaultRequirements);
    CollectedProperties(RequirementLexicon(), lower, DefaultRequirements);
  }

  // ---------------------------------------------------------------------
  // Risk factors: independent ifs, each appending one sentence.

  const TimelineRisk := Rule(AnyOf(["tight", "urgent", "asap"]),
    "Aggressive timeline may require additional resources or scope reduction")
  const BudgetRisk := Rule(AllOf(["budget", "limited"]),
    "Budget constraints may impact feature scope or timeline")
  const LegacyRisk := Rule(AnyOf(["integration", "legacy"]),
    "Legacy system integration complexity may cause delays")
  const ComplianceRisk := Rule(AnyOf(["compliance", "regulation"]),
    "Regulatory compliance requirements need careful validation")
  const CoordinationRisk := "Multiple stakeholders may require additional coordination and communication"

  /** The risk rules in the order app.py tries them; the last one looks at
      the number of speakers extracted (before the "Client"/"Project Team"
      fallback), not at the text. */
  function RiskRules(speakers: nat): seq<Rule> {
    TextRisks + [Rule(Given(speakers > 5), CoordinationRisk)]
  }

  const TextRisks: seq<Rule> := [TimelineRisk, BudgetRisk, LegacyRisk, ComplianceRisk]

  const DefaultRisks: seq<string> := [
    "Scope creep during development phase",
    "Third-party service dependencies may cause integration challenges",
    "User acceptance testing may reveal additional requirements"
  ]

  function RiskFactors(lower: string, speakers: nat): seq<string> {
    Collected(RiskRules(speakers), lower, DefaultRisks)
  }

  method CollectRisks(lower: string, speakers: nat) returns (risks: seq<string>)
    ensures risks == RiskFactors(lower, speakers)
  {
    risks := [];
    ghost var done: seq<Rule> := [];
    ghost var before := risks;
    if Holds(TimelineRisk.when, lower) {
      risks := risks + [TimelineRisk.outcome];
    }
    AppendStep(done, TimelineRisk, lower, before, risks);
    done, before := done + [TimelineRisk], risks;
    if Holds(BudgetRisk.when, lower) {
      risks := risks + [BudgetRisk.outcome];
    }
    AppendStep(done, BudgetRisk, lower, before, risks);
    done, before := done + [BudgetRisk], risks;
    if Holds(LegacyRisk.when, lower) {
      risks := risks + [LegacyRisk.outcome];
    }
    AppendStep(done, LegacyRisk, lower, before, risks);
    done, before := done + [LegacyRisk], risks;
    if Holds(ComplianceRisk.when, lower) {
      risks := risks + [ComplianceRisk.outcome];
    }
    AppendStep(done, ComplianceRisk, lower, before, risks);
    done, before := done + [ComplianceRisk], risks;
    if speakers > 5 {
      risks := risks + [CoordinationRisk];
    }
    AppendStep(done, Rule(Given(speakers > 5), CoordinationRisk), lower, before, risks);
    assert done == TextRisks;
    if risks == [] {
      risks := DefaultRisks;
    }
  }

  lemma RiskOutcomesDistinct(speakers: nat)
    ensures NoDuplicates(Outcomes(RiskRules(speakers))) && NoDuplicates(DefaultRisks)
    ensures CoordinationRisk !in DefaultRisks
  {
    var outs := Outcomes(RiskRules(speakers));
    assert outs == [TimelineRisk.outcome, BudgetRisk.outcome, LegacyRisk.outcome, ComplianceRisk.outcome, CoordinationRisk];
  }

  /** Never empty and without repeats. When a rule fires, exactly the
      sentences of the rules that fire, in rule order; otherwise the
      three-item default. */
  lemma RiskProperties(lower: string, speakers: nat)
    ensures RiskFactors(lower, speakers) != [] && NoDuplicates(RiskFactors(lower, speakers))
    ensures (exists k :: 0 <= k < 5 && Holds(RiskRules(speakers)[k].when, lower)) ==>
      (forall x :: x in RiskFactors(lower, speakers) <==>
         exists k :: 0 <= k < 5 && Holds(RiskRules(speakers)[k].when, lower) && RiskRules(speakers)[k].outcome == x)
      && InFirstOccurrenceOrder(RiskFactors(lower, speakers), Outcomes(RiskRules(speakers)))
    ensures (forall k :: 0 <= k < 5 ==> !Holds(RiskRules(speakers)[k].when, lower)) ==>
      RiskFactors(lower, speakers) == DefaultRisks
  {
    RiskOutcomesDistinct(speakers);
    CollectedProperties(RiskRules(speakers), lower, DefaultRisks);
  }

  /** The coordination risk is listed exactly when more than five speakers
      were extracted. */
  lemma CoordinationRiskIff(lower: string, speakers: nat)
    ensures CoordinationRisk in RiskFactors(lower, speakers) <==> speakers > 5
  {
    var rules := RiskRules(speakers);
    RiskProperties(lower, speakers);
    RiskOutcomesDistinct(speakers);
    var outs := Outcomes(rules);
    if speakers > 5 {
      assert Holds(rules[4].when, lower);
    } else {
      forall k | 0 <= k < 5 && Holds(rules[k].when, lower) ensures rules[k].outcome != CoordinationRisk {
        assert outs[k] == rules[k].outcome && outs[4] == CoordinationRisk;
      }
    }
  }

  /** The "budget" rule needs both words. */
  lemma BudgetNeedsLimited(lower: string, speakers: nat)
    requires Contains(lower, "budget") && !Contains(lower, "limited")
    ensures BudgetRisk.outcome !in RiskFactors(lower, speakers)
  {
    var rules := RiskRules(speakers);
    RiskProperties(lower, speakers);
    RiskOutcomesDistinct(speakers);
    HoldsAllOfTwo("budget", "limited", lower);
    var outs := Outcomes(rules);
    forall k | 0 <= k < 5 && Holds(rules[k].when, lower) ensures rules[k].outcome != BudgetRisk.outcome {
      assert outs[k] == rules[k].outcome && outs[1] == BudgetRisk.outcome;
    }
    assert BudgetRisk.outcome !in DefaultRisks;
  }

  // ---------------------------------------------------------------------
  // The record.

  const DefaultStakeholders: seq<string> := ["Client", "Project Team"]

  /** `stakeholders if stakeholders else ["Client", "Project Team"]` */
  function Stakeholders(speakers: seq<string>): seq<string> {
    OrDefault(speakers, DefaultStakeholders)
  }

  datatype TechRecord = TechRecord(
    projectTitle: string,
    stakeholders: seq<string>,
    requirements: seq<string>,
    todos: seq<Phases.Phase>,
    timeline: string,
    riskFactors: seq<string>)

  /** The record `generate_tech_analysis(text)` returns (its constant
      `"type": "tech"` field is the router's tag). */
  function TechReport(text: string): TechRecord {
    var lower := Lower(text);
    var speakers := Speakers.Speakers(Lines(text));
    var requirements := Requirements(lower);
    var weeks := Timeline.Weeks(|requirements|, text);
    TechRecord(
      ProjectTitle(lower),
      Stakeholders(speakers),
      requirements,
      Phases.PhasePlan(weeks),
      Show(weeks) + " weeks total",
      RiskFactors(lower, |speakers|))
  }

  method GenerateTechAnalysis(text: string) returns (r: TechRecord)
    ensures r == TechReport(text)
  {
    var lines := Lines(text);
    var stakeholders := Speakers.ExtractSpeakers(lines);
    var lower := Lower(text);
    var title := ProjectTitle(lower);
    var requirements := CollectRequirements(lower);
    var totalWeeks := Timeline.TotalWeeks(|requirements|, text);
    var phases := Phases.PhasePlan(totalWeeks);
    var risks := CollectRisks(lower, |stakeholders|);
    r := TechRecord(title, if stakeholders != [] then stakeholders else DefaultStakeholders,
                    requirements, phases, Show(totalWeeks) + " weeks total", risks);
  }

  /** The timeline string reads back as the week total, and the phase plan
      is laid out for that same total. */
  lemma TimelineReadsBack(text: string)
    ensures var r := TechReport(text);
      var weeks := Timeline.Weeks(|r.requirements|, text);
      |r.timeline| > 12 && r.timeline[|r.timeline| - 12..] == " weeks total"
      && AllDigits(r.timeline[..|r.timeline| - 12])
      && Value(r.timeline[..|r.timeline| - 12]) == weeks
      && r.todos == Phases.PhasePlan(weeks)
  {
    var r := TechReport(text);
    var weeks := Timeline.Weeks(|r.requirements|, text);
    var digits := Show(weeks);
    assert r.timeline == digits + " weeks total";
    assert r.timeline[..|r.timeline| - 12] == digits;
  }

  /** The stakeholders are never empty and have no repeats: the speakers
      extracted from the lines when there are any, otherwise "Client" and
      "Project Team". */
  lemma StakeholdersProperties(lines: seq<string>)
    ensures Stakeholders(Speakers.Speakers(lines)) != []
    ensures NoDuplicates(Stakeholders(Speakers.Speakers(lines)))
    ensures Speakers.Speakers(lines) != [] ==> Stakeholders(Speakers.Speakers(lines)) == Speakers.Speakers(lines)
    ensures Speakers.Speakers(lines) == [] ==> Stakeholders(Speakers.Speakers(lines)) == DefaultStakeholders
  {
    Speakers.SpeakersProperties(lines);
  }

  /** In the record, the coordination risk appears exactly when more than
      five speakers were extracted from the lines; the fallback names do not
      count. */
  lemma CoordinationInReport(text: string)
    ensures CoordinationRisk in TechReport(text).riskFactors <==> |Speakers.Speakers(Lines(text))| > 5
  {
    CoordinationRiskIff(Lower(text), |Speakers.Speakers(Lines(text))|);
  }

  /** Every list of the record is non-empty and free of repeats, and the
      plan has its five phases. */
  lemma ReportShape(text: string)
    ensures var r := TechReport(text);
      && r.stakeholders != [] && NoDuplicates(r.stakeholders)
      && r.requirements != [] && NoDuplicates(r.requirements)
      && |r.todos| == 5
      && r.riskFactors != [] && NoDuplicates(r.riskFactors)
  {
    var lower := Lower(text);
    var speakers := Speakers.Speakers(Lines(text));
    StakeholdersProperties(Lines(text));
    RequirementsProperties(lower);
    RiskProperties(lower, |speakers|);
    Phases.PhasePlanShape(Timeline.Weeks(|Requirements(lower)|, text));
  }
}
