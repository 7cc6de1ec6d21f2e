/** The entry point `generate_analysis_from_transcript`: the classifier
    picks one of the two extractors, and the record it returns carries a
    `"type"` field naming the extractor. */
module Router {
  import opened Text
  import Classifier
  import TechAnalysis
  import GeneralAnalysis

  datatype Analysis =
    | Tech(tech: TechAnalysis.TechRecord)
    | General(general: GeneralAnalysis.GeneralRecord)

  /** The record's `"type"` field. */
  function Kind(a: Analysis): string {
    match a
    case Tech(_) => "tech"
    case General(_) => "general"
  }

  /** The analysis of a transcript: the technical record when the
      classifier says so, the general record otherwise. */
  function Analyze(text: string): (r: Analysis)
    ensures r.Tech? <==> Classifier.IsTech(text)
  {
    if Classifier.IsTech(text) then Tech(TechAnalysis.TechReport(text))
    else General(GeneralAnalysis.GeneralReport(text))
  }

  method GenerateAnalysisFromTranscript(text: string) returns (r: Analysis)
    ensures r == Analyze(text)
  {
    if Classifier.IsTech(text) {
      var t := TechAnalysis.GenerateTechAnalysis(text);
      r := Tech(t);
    } else {
      var g := GeneralAnalysis.GenerateGeneralAnalysis(text);
      r := General(g);
    }
  }

  /** The record is technical exactly when three distinct entries of the
      keyword list occur in the lower-cased transcript. */
  lemma KindIff(text: string)
    ensures Kind(Analyze(text)) == "tech" <==>
      exists i, j, k :: i < j < k
        && Classifier.Occurs(Classifier.TechKeywords, Lower(text), i)
        && Classifier.Occurs(Classifier.TechKeywords, Lower(text), j)
        && Classifier.Occurs(Classifier.TechKeywords, Lower(text), k)
  {
    Classifier.IsTechIff(text);
  }

  /** A technical transcript stays technical when more text is added before
      or after it. */
  lemma TechIsStable(text: string, more: string)
    requires Kind(Analyze(text)) == "tech"
    ensures Kind(Analyze(text + more)) == "tech" && Kind(Analyze(more + text)) == "tech"
  {
    Classifier.IsTechExtend(text, more);
  }
}
