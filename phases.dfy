/** The five-phase plan of the technical extractor. Each phase gets a fixed
    share of the total (15, 20, 45, 15 and 5 per cent), rounded like
    Python's `round` (half to even) and never less than one week. */
module Phases {
  import opened Decimal

  datatype Phase = Phase(phase: string, tasks: seq<string>, duration: string, priority: string, color: string)

  /** A phase before its duration is known: its share in per cent. */
  datatype Template = Template(phase: string, tasks: seq<string>, percent: nat, priority: string, color: string)

  const Templates: seq<Template> := [
    Template("Requirements Gathering", [
      "Conduct stakeholder interviews",
      "Document functional requirements",
      "Create user stories and acceptance criteria",
      "Define technical specifications",
      "Establish project scope and constraints"], 15, "High", "blue"),
    Template("Design & Planning", [
      "Create system architecture design",
      "Develop UI/UX wireframes and mockups",
      "Design database schema",
      "Plan development sprints",
      "Set up project infrastructure"], 20, "High", "purple"),
    Template("Development", [
      "Set up development environment",
      "Implement core functionality",
      "Develop user interface components",
      "Build backend services and APIs",
      "Integrate third-party services"], 45, "Critical", "green"),
    Template("Testing", [
      "Unit testing implementation",
      "Integration testing",
      "User acceptance testing",
      "Performance and load testing",
      "Security testing and validation"], 15, "High", "orange"),
    Template("Deployment", [
      "Production environment setup",
      "Deployment automation",
      "Go-live support and monitoring",
      "User training and documentation",
      "Post-launch support planning"], 5, "High", "red")
  ]

  const PhaseNames: seq<string> :=
    ["Requirements Gathering", "Design & Planning", "Development", "Testing", "Deployment"]

  /** `round(x / 100)` with ties to the even neighbour: the nearest integer
      to x/100, and the even one when x/100 lies halfway between two. */
  function RoundHundredths(x: nat): (r: nat)
    ensures 200 * r <= 2 * x + 100 && 2 * x <= 200 * r + 100
    ensures (2 * x == 200 * r + 100 || 2 * x + 100 == 200 * r) ==> r % 2 == 0
  {
    var q, rem := x / 100, x % 100;
    if rem < 50 then q
    else if rem > 50 then q + 1
    else if q % 2 == 0 then q else q + 1
  }

  /** `max(1, round(total * percent / 100))` */
  function PhaseWeeks(total: nat, percent: nat): (w: nat)
    ensures w >= 1
    ensures RoundHundredths(total * percent) >= 1 ==> w == RoundHundredths(total * percent)
    ensures RoundHundredths(total * percent) == 0 ==> w == 1
  {
    var r := RoundHundredths(total * percent);
    if r < 1 then 1 else r
  }

  function Instantiate(t: Template, total: nat): Phase {
    Phase(t.phase, t.tasks, Show(PhaseWeeks(total, t.percent)) + " weeks", t.priority, t.color)
  }

  /** The `phases` list of app.py for a total of `total` weeks. */
  function PhasePlan(total: nat): seq<Phase> {
    seq(|Templates|, i requires 0 <= i < |Templates| => Instantiate(Templates[i], total))
  }

  /** `p` is template `t` laid out for a total of `total` weeks. */
  predicate Fits(p: Phase, t: Template, total: nat) {
    && |p.tasks| == 5 && p.tasks == t.tasks && p.priority == t.priority && p.color == t.color
    && p.duration == Show(PhaseWeeks(total, t.percent)) + " weeks"
  }

  /** Exactly five phases, in the fixed order, each with its five fixed
      tasks, priority and colour, and a duration (at least one week, by
      `PhaseWeeks`) that is its share of the total rounded half to even. */
  lemma PhasePlanShape(total: nat)
    ensures |PhasePlan(total)| == 5
    ensures forall i :: 0 <= i < 5 ==> PhasePlan(total)[i].phase == PhaseNames[i]
    ensures forall i :: 0 <= i < 5 ==> Fits(PhasePlan(total)[i], Templates[i], total)
    ensures [Templates[0].percent, Templates[1].percent, Templates[2].percent,
             Templates[3].percent, Templates[4].percent] == [15, 20, 45, 15, 5]
  {
    forall i | 0 <= i < 5 ensures Fits(PhasePlan(total)[i], Templates[i], total) {
      assert i == 0 || i == 1 || i == 2 || i == 3 || i == 4;
    }
  }

  /** A total of ten weeks: 1.5 rounds to 2, 4.5 to 4 and 0.5 to 0, which
      the floor lifts to 1. */
  lemma TenWeekPlan()
    ensures PhaseWeeks(10, 15) == 2 && PhaseWeeks(10, 20) == 2 && PhaseWeeks(10, 45) == 4
    ensures PhaseWeeks(10, 5) == 1
  {
  }
}
