# Transcript analyzer: a verified model

This project models the analysis engine of a small web service. The
service turns a conversation transcript into a structured record. The
engine lives in `app.py`.

- `detect_tech_conversation` decides whether a transcript is about a
  software project. It is technical when at least three of 46 keywords
  occur in the lower-cased text. The match is a plain substring test, so
  "app" also matches inside "happy".
- `generate_tech_analysis` builds the technical record:
  - a project title, from an if/elif chain;
  - stakeholders, from `Name: utterance` lines;
  - requirements, from a 20-entry keyword table;
  - a total duration in weeks: a base from the number of requirements,
    then the first `N week/month/day` mention in the text, where weeks and
    months override the base and days keep it;
  - a five-phase plan, each phase getting a fixed share of that total;
  - risk factors.
- `generate_general_analysis` builds the general record:
  - a conversation title;
  - participants;
  - action items, taken from lines that mention an action keyword;
  - categories and priorities, from runs of independent ifs;
  - fixed next steps;
  - a timeline bucket.
- `generate_analysis_from_transcript` routes a transcript to one of the two
  extractors. The record carries a `type` tag, `"tech"` or `"general"`.
- `extract_text_from_object` walks an uploaded JSON document and collects
  its long string members as paragraphs of the form `key: value`.

Modules, one per file:

| module | file | models |
|---|---|---|
| `Text` | text.dfy | Python's `lower`, `strip`, `split`, `in` on strings, and the `lines` comprehension |
| `Seqs` | seqs.dfy | repeat-free lists and first-occurrence order |
| `Decimal` | decimal.dfy | decimal rendering of integers (the f-strings) |
| `Rules` | rules.dfy | keyword rule tables; an if/elif chain is `FirstMatch`, a run of independent if-appends followed by `x if x else default` is `Collected` |
| `Classifier` | classifier.dfy | `detect_tech_conversation` |
| `Speakers` | speakers.dfy | the stakeholder loop (app.py:36-44) and its copy for participants (app.py:230-238), one model shared by both extractors |
| `Timeline` | timeline.dfy | the week total and the `(\d+)\s*(week\|month\|day)s?` search |
| `Phases` | phases.dfy | the five-phase plan and its rounding |
| `TechAnalysis` | tech.dfy | `generate_tech_analysis` |
| `GeneralAnalysis` | general.dfy | `generate_general_analysis` |
| `Router` | router.dfy | `generate_analysis_from_transcript` |
| `JsonText` | json_text.dfy | `extract_text_from_object` |

## How the model is built

The speaker, requirement and action-item loops of app.py and its
recursive JSON walk are methods with loop invariants. The runs of
independent risk, category and priority `if`s are straight-line methods,
with no loop; after each `if`, the lemma `AppendStep` checks that the list
so far is the table's outcome for the rules tried.

Each method's `ensures` ties its result to a specification function. The
properties app.py relies on are proved about those functions as lemmas:

- no repeats;
- exactly the entries whose keywords occur;
- table order;
- the default list when nothing matches.

The if/elif chains, the classifier and the router are functions.

Some behaviour of the code that a reader might not expect:

- The title lists include "plan", "celebration" and "money"
  (app.py:244-252). A text that says "plan" and no meeting or event word is
  titled "Business Planning".
- A line such as `[00:00:15] Manager: hi` is cut at the timestamp's first
  colon (app.py:37-40), so the speaker is `[00`. The tag removal of
  app.py:42 finds no `]` and leaves it as it is.
- A line `[tag]: x` gives the empty speaker name, and the name is kept
  (app.py:42-44).
- Only the first `N week/month/day` mention counts (app.py:112-119). When
  it is in days, the base estimate stays.

## Model

| member | source | states |
|---|---|---|
| Text.Lines | app.py:33 | every line of the list is non-empty and neither starts nor ends with whitespace; with `LinesSingle` and `LinesAppend` the lines are the stripped non-blank pieces between newlines, in order |
| Text.Lower | app.py:26 | ASCII lower-casing, as the `.lower()` calls at app.py:26, 48, 241 and 262 use it; each character goes through `LowerChar`, which maps A–Z to a–z and keeps the rest, and `LowerAppend` shows lowering distributes over concatenation |
| Text.Contains | app.py:27 | Python's `in` on strings: some position where the pattern occurs; `ContainsAppend` keeps it under added text |
| Text.Strip | app.py:41 | the result is no longer than the input and neither starts nor ends with whitespace |
| Text.StripSurrounded | app.py:41 | stripping keeps a slice of the input with only whitespace before and after it |
| Text.Split | app.py:33 | `text.split('\n')`: at least one piece, no piece holds the separator, and joining the pieces with it gives the text back |
| Text.SplitNoSeparator | app.py:33 | a text without the separator splits into itself alone |
| Text.SplitAppend | app.py:33 | splitting at one separator is splitting the text before it, then the text after it |
| Text.NonBlankAppend | app.py:33 | the filter over pieces distributes over concatenation |
| Text.LinesSingle | app.py:33 | a text without a newline gives its stripped self, or no line when it is blank |
| Text.LinesAppend | app.py:33 | the lines of `a + "\n" + b` are the lines of `a` followed by the lines of `b` |
| Decimal.Value | app.py:115 | `int(time_value)` on a digit run; `Show` reads back through it, so `Value(Show(n)) == n` |
| Decimal.Show | app.py:221 | the rendering is non-empty, all digits, has no leading zero and reads back as the number |
| Seqs.Dedup | app.py:43 | keeping first occurrences holds exactly the same elements and has no repeats |
| Seqs.DedupOrder | app.py:43-44 | the kept names appear in the order of their first occurrence |
| Rules.FirstMatch | app.py:47-61 | the first rule whose keywords occur gives the result; when none occurs the default stands |
| Rules.FirstMatchDefault | app.py:47-61 | with a default outside the table, the default comes out exactly when no rule holds; the result is always the default or a table outcome |
| Rules.OrDefault | app.py:92-98 | `x if x else default`: a non-empty list is kept, an empty one replaced, and the result is never empty when the default is not |
| Rules.AllMatches | app.py:279-292 | the outcomes a run of independent `if`-appends collects, in table order; characterised by `AllMatchesMembership` and `AllMatchesOrder` |
| Rules.Collected | app.py:279-295 | the collected outcomes, or the default when there are none; characterised by `CollectedProperties` |
| Rules.AllMatchesMembership | app.py:279-292 | the appended outcomes are exactly those of the rules that hold |
| Rules.AllMatchesOrder | app.py:279-292 | with distinct outcomes the appended list has no repeats and follows table order |
| Rules.CollectedProperties | app.py:279-295 | after the fallback the list is non-empty and repeat-free; with a match it is exactly the holding outcomes in table order, otherwise the default |
| Classifier.KeywordCount | app.py:26 | the number of list entries that occur in the text; `PresentPositions` lists exactly those entries |
| Classifier.IsTech | app.py:13-29 | a count of three or more; characterised by `IsTechIff` |
| Classifier.CountAtLeastThree | app.py:26-28 | a count of at least three holds exactly when three distinct keyword positions occur |
| Classifier.IsTechIff | app.py:13-28 | a transcript is technical exactly when three distinct entries of the keyword list occur in its lower-cased text |
| Classifier.CountMonotone | app.py:26 | a text containing every substring of another has a count at least as high |
| Classifier.IsTechExtend | app.py:13-28 | text added before or after a technical transcript keeps it technical |
| Speakers.SpeakerName | app.py:37-42 | the name field, stripped and with a leading tag removed; no name when the line has no `Name:` prefix |
| Speakers.Speakers | app.py:36-44 | the same loop appears again at app.py:230-238 for participants, and the model shares one copy: the accepted names of the lines without repeats; characterised by `SpeakersProperties` |
| Speakers.NameField | app.py:37-40 | `^([^:]+):` yields the non-empty, colon-free text before the first colon; it fails when the line has no colon or starts with one |
| Speakers.StripTag | app.py:42 | a `[`-opened name loses everything through its first `]` and the whitespace after; any other name is unchanged |
| Speakers.ExtractSpeakers | app.py:36-44 | the loop, which app.py repeats at 230-238, returns the speaker list of the lines |
| Speakers.SpeakersProperties | app.py:36-44 | the speakers have no repeats, are each shorter than 50 characters, are exactly the accepted names of the lines, and keep first-appearance order |
| Speakers.TimestampedLine | app.py:37-42 | a line opening with `[00:` gives the speaker `[00` |
| Speakers.TagOnlyLine | app.py:37-42 | the line `[tag]: x` gives the empty speaker name |
| Timeline.MentionAt | app.py:112 | the `(\d+)\s*(week\|month\|day)s?` match starting at a position: digits, optional whitespace, a unit word |
| Timeline.Weeks | app.py:100-119 | the week total: months times four or weeks as written for the first mention, the base for a day mention or none |
| Timeline.FirstMention | app.py:112-114 | `findall(...)[0]`: the result is the match at the leftmost position where the pattern matches, and there is none only when it matches nowhere |
| Timeline.BaseWeeks | app.py:101-109 | the base is 8, 10, 12 or 16 weeks by the number of requirements |
| Timeline.TotalWeeks | app.py:100-119 | the reassignment sequence computes the week total: months times four, weeks as they are, the base otherwise |
| Timeline.BaseWeeksMonotone | app.py:101-109 | more requirements never shorten the base estimate |
| Timeline.ThreeMonths | app.py:112-117 | after digit-free text, "3 months" fixes the total at 12 weeks whatever the requirements |
| Timeline.ThreeMonthsAt | app.py:112 | "3 months" at a position matches there as three months |
| Phases.RoundHundredths | app.py:132 | `round(x/100)`: the nearest integer, the even one on a tie |
| Phases.PhaseWeeks | app.py:132 | a phase lasts its rounded share when that is positive, and exactly one week when the share rounds to zero |
| Phases.PhasePlan | app.py:122-188 | the five phases laid out for a total; characterised by `PhasePlanShape` |
| Phases.PhasePlanShape | app.py:122-188 | five phases in fixed order, each with its five tasks, priority, colour and a duration that is its share (15, 20, 45, 15, 5 per cent) of the total |
| Phases.TenWeekPlan | app.py:132-184 | for ten weeks the rounding gives 2, 2, 4 and, lifted from 0, 1 week |
| TechAnalysis.ProjectTitle | app.py:47-61 | the first-match title chain; characterised by `ProjectTitleProperties` |
| TechAnalysis.ProjectTitleProperties | app.py:47-61 | the title is "Digital Project" exactly when no title rule's keywords occur; otherwise it is that of the first rule that holds |
| TechAnalysis.IosMeansMobile | app.py:50-51 | any text mentioning "ios" is titled "Mobile Application Development" |
| TechAnalysis.RequirementLexicon | app.py:65-86 | the table has 20 entries in dict order; entry k fires exactly when keyword k occurs and yields sentence k |
| TechAnalysis.SentencesDistinct | app.py:65-86 | the twenty requirement sentences are pairwise distinct |
| TechAnalysis.CollectRequirements | app.py:88-98 | the loop, with its `not in` check and fallback, returns the requirement list of the text |
| TechAnalysis.Requirements | app.py:64-98 | the sentences of the present keywords or the defaults; characterised by `RequirementsProperties` |
| TechAnalysis.RequirementsProperties | app.py:64-98 | requirements are non-empty and repeat-free; with a keyword present they are exactly the sentences of the present keywords in table order, otherwise the four defaults |
| TechAnalysis.CollectRisks | app.py:191-213 | the five ifs and the fallback return the risk list of the text and speaker count |
| TechAnalysis.RiskFactors | app.py:191-213 | the holding risk rules' sentences or the defaults; characterised by `RiskProperties` |
| TechAnalysis.RiskProperties | app.py:191-213 | risks are non-empty and repeat-free; with a rule holding they are exactly its outcomes in rule order, otherwise the three defaults |
| TechAnalysis.CoordinationRiskIff | app.py:205-206 | the coordination risk is listed exactly when there are more than five speakers |
| TechAnalysis.BudgetNeedsLimited | app.py:196-197 | "budget" without "limited" never yields the budget risk |
| TechAnalysis.TechReport | app.py:31-223 | the technical record of a text; characterised by `ReportShape`, `TimelineReadsBack` and `CoordinationInReport` |
| TechAnalysis.GenerateTechAnalysis | app.py:31-223 | the extractor returns the technical record of the text |
| TechAnalysis.TimelineReadsBack | app.py:122-221 | the timeline string is digits reading back as the week total followed by " weeks total", and the plan is laid out for that same total |
| TechAnalysis.Stakeholders | app.py:218 | the speakers, or "Client" and "Project Team" when there are none; characterised by `StakeholdersProperties` |
| TechAnalysis.StakeholdersProperties | app.py:218 | stakeholders are never empty and repeat-free: the speakers when there are any, else "Client" and "Project Team" |
| TechAnalysis.CoordinationInReport | app.py:205-218 | the record lists the coordination risk exactly when more than five speakers were extracted; the fallback names do not count |
| TechAnalysis.ReportShape | app.py:215-223 | stakeholders, requirements and risks are non-empty and repeat-free; the plan has five phases |
| GeneralAnalysis.ConversationTitle | app.py:242-255 | the first-match title chain; characterised by `ConversationTitleProperties` |
| GeneralAnalysis.ConversationTitleProperties | app.py:242-255 | the title is "General Discussion" exactly when no title rule holds; otherwise it is that of the first rule that holds |
| GeneralAnalysis.PlanMeansBusiness | app.py:244-249 | a text with "plan" and no meeting or event word is titled "Business Planning" |
| GeneralAnalysis.AfterLabel | app.py:265 | `re.sub(r'^[^:]*:', '', line)`: everything through the first colon goes; a colon-free line is unchanged |
| GeneralAnalysis.ActionOf | app.py:261-266 | a line yields its text after the label when it mentions an action and that text has 11 to 199 characters |
| GeneralAnalysis.ActionItems | app.py:257-276 | the candidates of the lines, or the generic items when there are none |
| GeneralAnalysis.MentionsAction | app.py:261-263 | some action phrase occurs in the lower-cased line |
| GeneralAnalysis.ActionCandidates | app.py:261-267 | the items the lines yield, in line order; characterised by `ActionCandidatesMembership` and `ActionCandidatesAppend` |
| GeneralAnalysis.ActionCandidatesMembership | app.py:261-267 | an item is listed exactly when some line mentions an action keyword and its stripped text after the label has 11 to 199 characters |
| GeneralAnalysis.ActionCandidatesAppend | app.py:261-267 | the items of two runs of lines are those of the first run followed by those of the second |
| GeneralAnalysis.ExtractActionItems | app.py:258-267 | the loop returns the action candidates of the lines in line order |
| GeneralAnalysis.FirstTen | app.py:329 | `items[:10]` has length min(n, 10) and is a prefix |
| GeneralAnalysis.TimelineBucket | app.py:318-323 | more than 10 items give "3-4 weeks", 6 to 10 "2-3 weeks", else "1-2 weeks" |
| GeneralAnalysis.TimelineBucketMonotone | app.py:318-323 | more items never give a shorter bucket |
| GeneralAnalysis.CollectCategories | app.py:279-295 | the six ifs and the fallback return the category list of the text |
| GeneralAnalysis.Categories | app.py:279-295 | the category labels of the holding rules, or the two defaults; characterised by `CategoriesProperties` |
| GeneralAnalysis.CategoriesProperties | app.py:279-295 | categories are non-empty and repeat-free; with a rule holding they are exactly its labels in rule order, otherwise "General Tasks", "Follow-up" |
| GeneralAnalysis.CollectPriorities | app.py:297-307 | the three ifs and the fallback return the priority list of the text |
| GeneralAnalysis.Priorities | app.py:297-307 | the priority labels of the holding rules, or the normal-priority default; characterised by `PrioritiesProperties` |
| GeneralAnalysis.PrioritiesProperties | app.py:297-307 | priorities are non-empty and repeat-free; with a rule holding they are exactly its labels in rule order, otherwise the normal-priority label |
| GeneralAnalysis.GeneralReport | app.py:225-334 | the general record of a text; characterised by `ReportShape` and `ActionItemsInReport` |
| GeneralAnalysis.GenerateGeneralAnalysis | app.py:225-334 | the extractor returns the general record of the text |
| GeneralAnalysis.Participants | app.py:328 | the speakers, or "Participant 1" and "Participant 2" when there are none; characterised by `ParticipantsProperties` |
| GeneralAnalysis.ParticipantsProperties | app.py:328 | participants are never empty and repeat-free: the speakers when there are any, else "Participant 1" and "Participant 2" |
| GeneralAnalysis.ActionItemsInReport | app.py:269-329 | the record holds 1 to 10 items, a prefix of the defaulted list; the bucket counts the whole defaulted list |
| GeneralAnalysis.ReportShape | app.py:325-334 | participants, categories and priorities are non-empty and repeat-free, action items non-empty, five next steps |
| Router.Analyze | app.py:336-341 | the record's type is "tech" exactly when the classifier says technical, "general" otherwise |
| Router.GenerateAnalysisFromTranscript | app.py:336-341 | the router returns the analysis of the text |
| Router.Kind | app.py:216 | the record's `"type"` field, `"tech"` here and `"general"` at app.py:326; characterised by `KindIff` |
| Router.KindIff | app.py:336-339 | the record is technical exactly when three distinct keyword-list entries occur in the lower-cased text |
| Router.TechIsStable | app.py:336-339 | adding text before or after a technical transcript keeps its record technical |
| JsonText.ExtractTextFromObject | app.py:419-435 | the recursive walk with its loops returns the extracted text of the value at that depth |
| JsonText.FormatAppend | app.py:428 | the paragraphs of two entry lists are those of the first followed by those of the second |
| JsonText.Extract | app.py:419-435 | the text the walk returns; characterised by `ExtractIsFormat` |
| JsonText.Entries | app.py:419-435 | the long string members reachable within the depth limit, in document order |
| JsonText.ExtractIsFormat | app.py:419-435 | the extracted text is exactly the `key: value` paragraphs of the long string members reachable within the depth limit, in document order |
| JsonText.EntriesLong | app.py:427-428 | every extracted entry holds a string of more than ten characters |
| JsonText.DepthShift | app.py:421-422 | only the remaining depth budget matters: the same value `k` levels deeper under a limit `k` higher yields the same entries |
| JsonText.TooDeep | app.py:421-422 | with the default limit of three, a long string in an object four levels below the top object is not extracted |
| JsonText.TopLevelString | app.py:427-428 | a long string member of the top-level object becomes the paragraph `key: value` followed by a blank line |
| JsonText.ArrayStringsIgnored | app.py:432-433 | strings that are array items are never extracted, however long |

## Left out

- The Flask routes, upload handling, HTTP status codes and file I/O are not modelled. Neither are the simulated audio, video and YouTube transcript generators, their `random.choice`, the YouTube URL regex, or `process_json_file`'s choice of fields. They are I/O or canned text.
- JSON parsing (`json.load`) is not part of this model. The `Json` datatype is the parsed value.
- JSON numbers are integers in the model. Their value never reaches the text, so floats change nothing.
- Duplicate object keys are not modelled. An object is its member list in document order, as a Python dict keeps it.
- Lower-casing, whitespace and `\d` are ASCII only. Python's Unicode case mapping, Unicode whitespace and Unicode digits are not modelled.
- Phases.PhaseWeeks: computes `round(total * share)` on the exact rational total × percent / 100, rounding half to even. Python multiplies by a float such as `0.15`, and a product just off a half could round the other way. The model does not capture that. For totals of 2^53 weeks or more the float product is inexact, and a duration can differ from the model's by more than one. From about 2^1024 weeks `total_weeks * 0.15` raises `OverflowError` (app.py:132), and on Python 3.11 and later `int()` (app.py:115) rejects a mention of more than 4300 digits. In those cases app.py returns no record, while `TechAnalysis.TechReport`, `TechAnalysis.GenerateTechAnalysis` and the router still return one.
- The `requirement not in requirements` check of the requirement loop is modelled literally. The sentences are pairwise distinct, so it never fails.
