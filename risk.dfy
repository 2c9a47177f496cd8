/** The risk assessment of agents/risk_control/risk_agent.py: a weighted
    score over the completion rates two oracle replies give, the banded
    risk level, and the release decision. Rates and scores are exact reals. */
module Risk {
  import opened Wrappers
  import opened Text
  import opened Store

  const FR_WEIGHT: real := 0.5
  const NFR_WEIGHT: real := 0.4
  const COMPILATION_WEIGHT: real := 0.1
  const RISK_GO_THRESHOLD: real := 0.7
  const RISK_NO_GO_THRESHOLD: real := 0.5
  const UNKNOWN_LEVEL: string := "Unknown"

  /** One entry `level: (low, high)` of `RISK_LEVELS`; a score is in the band
      when `low <= score < high`. */
  datatype Band = Band(level: string, low: real, high: real)

  /** `RISK_LEVELS`, in the order the dict literal lists them. */
  const RISK_LEVELS: seq<Band> := [Band("Low", 0.0, 0.4), Band("Medium", 0.4, 0.7), Band("High", 0.7, 1.0)]

  // ---------------------------------------------------------------------
  // classify_risk_level
  // ---------------------------------------------------------------------

  predicate InBand(b: Band, score: real) {
    b.low <= score < b.high
  }

  /** The level of the first band holding the score, or "Unknown". */
  function LevelOf(bands: seq<Band>, score: real): (level: string)
    ensures level != UNKNOWN_LEVEL ==> exists b :: b in bands && b.level == level && InBand(b, score)
    ensures (forall b :: b in bands ==> b.level != UNKNOWN_LEVEL) ==>
              (level == UNKNOWN_LEVEL <==> forall b :: b in bands ==> !InBand(b, score))
    decreases |bands|
  {
    if bands == [] then UNKNOWN_LEVEL
    else if InBand(bands[0], score) then bands[0].level
    else
      assert forall b :: b in bands[1..] ==> b in bands;
      LevelOf(bands[1..], score)
  }

  /** The `for level, (low, high) in RISK_LEVELS.items()` loop with its early return. */
  method ClassifyRiskLevel(score: real) returns (level: string)
    ensures level == LevelOf(RISK_LEVELS, score)
  {
    for i := 0 to |RISK_LEVELS|
      invariant LevelOf(RISK_LEVELS[i..], score) == LevelOf(RISK_LEVELS, score)
    {
      var band := RISK_LEVELS[i];
      assert RISK_LEVELS[i..][1..] == RISK_LEVELS[i + 1..];
      if band.low <= score < band.high {
        return band.level;
      }
    }
    return UNKNOWN_LEVEL;
  }

  /** The bands are [0, 0.4) Low, [0.4, 0.7) Medium and [0.7, 1.0) High;
      every other score, 1.0 and the negative ones included, is "Unknown". */
  lemma RiskLevelBands(score: real)
    ensures LevelOf(RISK_LEVELS, score) == "Low" <==> 0.0 <= score < 0.4
    ensures LevelOf(RISK_LEVELS, score) == "Medium" <==> 0.4 <= score < 0.7
    ensures LevelOf(RISK_LEVELS, score) == "High" <==> 0.7 <= score < 1.0
    ensures LevelOf(RISK_LEVELS, score) == UNKNOWN_LEVEL <==> score < 0.0 || score >= 1.0
  {
    var rest := RISK_LEVELS[1..];
    assert rest[1..] == [Band("High", 0.7, 1.0)];
    assert rest[1..][1..] == [];
  }

  // ---------------------------------------------------------------------
  // The score and the decision
  // ---------------------------------------------------------------------

  /** `risk_numeric`: the weighted shortfall of the three rates. */
  function RiskScore(fr: real, nfr: real, compilation: real): real {
    FR_WEIGHT * (1.0 - fr) + NFR_WEIGHT * (1.0 - nfr) + COMPILATION_WEIGHT * (1.0 - compilation)
  }

  /** The weights sum to 1: rates in [0, 1] give a score in [0, 1], full
      rates give 0 and zero rates give 1. */
  lemma RiskScoreBounds(fr: real, nfr: real, compilation: real)
    ensures FR_WEIGHT + NFR_WEIGHT + COMPILATION_WEIGHT == 1.0
    ensures 0.0 <= fr <= 1.0 && 0.0 <= nfr <= 1.0 && 0.0 <= compilation <= 1.0 ==>
              0.0 <= RiskScore(fr, nfr, compilation) <= 1.0
    ensures RiskScore(1.0, 1.0, 1.0) == 0.0
    ensures RiskScore(0.0, 0.0, 0.0) == 1.0
  {
  }

  /** A higher completion rate never raises the score. */
  lemma RiskScoreMonotone(fr: real, nfr: real, compilation: real, fr': real, nfr': real, compilation': real)
    requires fr <= fr' && nfr <= nfr' && compilation <= compilation'
    ensures RiskScore(fr', nfr', compilation') <= RiskScore(fr, nfr, compilation)
  {
  }

  datatype Decision = Release | DoNotRelease | ConditionallyRelease

  /** The decision's text in the response and the stored row. */
  function DecisionName(d: Decision): string {
    match d
    case Release => "Release"
    case DoNotRelease => "Do Not Release"
    case ConditionallyRelease => "Conditionally Release"
  }

  /** The `if`/`elif`/`else` on the score: exactly one of the three applies. */
  function ReleaseDecision(score: real): (d: Decision)
    ensures d == Release <==> score >= RISK_GO_THRESHOLD
    ensures d == DoNotRelease <==> score <= RISK_NO_GO_THRESHOLD
    ensures d == ConditionallyRelease <==> RISK_NO_GO_THRESHOLD < score < RISK_GO_THRESHOLD
  {
    if score >= RISK_GO_THRESHOLD then Release
    else if score <= RISK_NO_GO_THRESHOLD then DoNotRelease
    else ConditionallyRelease
  }

  /** The level and the decision agree: a High score is released, a Low one
      is not, and a Medium one is never released, held back exactly up to
      0.5 and conditionally released above it. */
  lemma LevelAndDecision(score: real)
    ensures LevelOf(RISK_LEVELS, score) == "High" ==> ReleaseDecision(score) == Release
    ensures LevelOf(RISK_LEVELS, score) == "Low" ==> ReleaseDecision(score) == DoNotRelease
    ensures LevelOf(RISK_LEVELS, score) == "Medium" ==> ReleaseDecision(score) != Release
    ensures LevelOf(RISK_LEVELS, score) == "Medium" ==> (ReleaseDecision(score) == DoNotRelease <==> score <= 0.5)
  {
    RiskLevelBands(score);
  }

  // ---------------------------------------------------------------------
  // calculate_risk
  // ---------------------------------------------------------------------

  /** What the oracle is asked: the compilation estimate over the first 6000
      characters of the code, and the FR/NFR completion over the first 8000
      with both requirement lists. The prompt wording is left out. */
  datatype RiskPrompt =
    | CompilationPrompt(code: string, language: string)
    | RequirementsPrompt(code: string, frs: seq<string>, nfrs: seq<string>)

  /** What `get_llm_completion` gives back: its text, or an exception, which
      `calculate_risk` does not catch. */
  datatype Answer = Answered(raw: string) | Failed(error: string)

  /** The compilation reply after `json.loads` and the `float(...)` reads;
      every way that block raises is `CompilationUnparsed`, an absent key is None. */
  datatype CompilationReply =
    | CompilationUnparsed(error: string)
    | CompilationFields(successRate: Option<real>, confidence: Option<real>, rationale: Option<string>)

  /** The FR/NFR reply, read the same way. */
  datatype RequirementsReply =
    | RequirementsUnparsed(error: string)
    | RequirementsFields(frRate: Option<real>, nfrRate: Option<real>, confidence: Option<real>,
                         rationale: Option<string>)

  /** A rate, the confidence and the rationale one reply yields. */
  datatype Estimate = Estimate(rate: real, confidence: real, rationale: string)

  /** The compilation `try`/`except`: a failed parse gives 0.0, 0.0 and
      "Parsing error: ..."; an absent key gives 0.0 (or ""). */
  function CompilationEstimate(reply: CompilationReply): (e: Estimate)
    ensures reply.CompilationUnparsed? ==>
              e == Estimate(0.0, 0.0, "Parsing error: " + reply.error)
    ensures reply.CompilationFields? ==>
              e.rate == reply.successRate.GetOr(0.0) && e.confidence == reply.confidence.GetOr(0.0)
  {
    match reply
    case CompilationUnparsed(err) => Estimate(0.0, 0.0, "Parsing error: " + err)
    case CompilationFields(rate, confidence, why) =>
      Estimate(rate.GetOr(0.0), confidence.GetOr(0.0), why.GetOr(""))
  }

  /** The FR/NFR `try`/`except`, returning (fr, nfr, confidence, rationale). */
  function RequirementsEstimate(reply: RequirementsReply): (e: (real, real, real, string))
    ensures reply.RequirementsUnparsed? ==> e == (0.0, 0.0, 0.0, "Parsing error: " + reply.error)
    ensures reply.RequirementsFields? ==>
              e.0 == reply.frRate.GetOr(0.0) && e.1 == reply.nfrRate.GetOr(0.0)
              && e.2 == reply.confidence.GetOr(0.0)
  {
    match reply
    case RequirementsUnparsed(err) => (0.0, 0.0, 0.0, "Parsing error: " + err)
    case RequirementsFields(fr, nfr, confidence, why) =>
      (fr.GetOr(0.0), nfr.GetOr(0.0), confidence.GetOr(0.0), why.GetOr(""))
  }

  /** The `risk_data` dict `calculate_risk` returns; `riskScore` is the
      score times 100. */
  datatype RiskAssessment = RiskAssessment(
    riskLevel: string,
    releaseDecision: string,
    frCompletionRate: real,
    nfrCompletionRate: real,
    compilationSuccessRate: real,
    riskScore: real,
    rationale: string,
    compilationConfidence: real,
    requirementsCoverageConfidence: real)

  /** The arguments of `create_risk_assessment`; `riskScore` is the 0..1 score. */
  datatype RiskRecord = RiskRecord(
    projectId: string,
    commitId: CommitId,
    frScore: real,
    nfrScore: real,
    compilationScore: real,
    riskScore: real,
    releaseDecision: string,
    rationale: string)

  /** The two `ValueError`s, and an exception out of the oracle call. */
  datatype RiskError = SnapshotNotFound(projectId: string) | NoRequirements(projectId: string) | OracleRaised(error: string)

  /** The assessment built from the two estimates. */
  function Assess(projectId: string, commitId: CommitId, comp: Estimate, req: (real, real, real, string))
    : (a: (RiskAssessment, RiskRecord))
    ensures a.1.riskScore == RiskScore(req.0, req.1, comp.rate)
    ensures a.0.riskScore == 100.0 * a.1.riskScore
    ensures a.0.riskLevel == LevelOf(RISK_LEVELS, a.1.riskScore)
    ensures a.0.releaseDecision == a.1.releaseDecision == DecisionName(ReleaseDecision(a.1.riskScore))
    ensures a.1.commitId == commitId && a.1.projectId == projectId
    ensures a.0.frCompletionRate == a.1.frScore == req.0 && a.0.nfrCompletionRate == a.1.nfrScore == req.1
    ensures a.0.compilationSuccessRate == a.1.compilationScore == comp.rate
    ensures a.0.compilationConfidence == comp.confidence && a.0.requirementsCoverageConfidence == req.2
    ensures a.0.rationale == a.1.rationale == "Compilation: " + comp.rationale + "\nFR/NFR: " + req.3
  {
    var (fr, nfr, reqConfidence, reqRationale) := req;
    var score := RiskScore(fr, nfr, comp.rate);
    var decision := DecisionName(ReleaseDecision(score));
    var rationale := "Compilation: " + comp.rationale + "\nFR/NFR: " + reqRationale;
    (RiskAssessment(LevelOf(RISK_LEVELS, score), decision, fr, nfr, comp.rate, 100.0 * score,
                    rationale, comp.confidence, reqConfidence),
     RiskRecord(projectId, commitId, fr, nfr, comp.rate, score, decision, rationale))
  }

  /** `calculate_risk`, with the latest snapshot and the requirement
      descriptions the unseen helpers return supplied as `latest`, `frs` and
      `nfrs`. The oracle is asked about compilation first and about the
      requirements second; the record is what is passed to
      `create_risk_assessment`. */
  function CalculateRisk(projectId: string, language: string, latest: Option<Snapshot>,
                         frs: seq<string>, nfrs: seq<string>,
                         complete: RiskPrompt -> Answer,
                         decodeCompilation: string -> CompilationReply,
                         decodeRequirements: string -> RequirementsReply)
    : (r: Result<(RiskAssessment, RiskRecord), RiskError>)
    ensures r == Err(SnapshotNotFound(projectId)) <==> latest.None?
    ensures r == Err(NoRequirements(projectId)) <==> latest.Some? && frs == [] && nfrs == []
    ensures r.Err? && r.error.OracleRaised? ==>
              latest.Some? && (frs != [] || nfrs != [])
              && (complete(CompilationPrompt(Prefix(latest.value.codeText, 6000), language)).Failed?
                  || complete(RequirementsPrompt(Prefix(latest.value.codeText, 8000), frs, nfrs)).Failed?)
    ensures r.Ok? ==> latest.Some? && r.value.1.commitId == latest.value.commitId && r.value.1.projectId == projectId
    ensures r.Ok? <==> latest.Some? && (frs != [] || nfrs != [])
                       && complete(CompilationPrompt(Prefix(latest.value.codeText, 6000), language)).Answered?
                       && complete(RequirementsPrompt(Prefix(latest.value.codeText, 8000), frs, nfrs)).Answered?
    ensures r.Ok? ==>
              r.value == Assess(projectId, latest.value.commitId,
                                CompilationEstimate(decodeCompilation(
                                  complete(CompilationPrompt(Prefix(latest.value.codeText, 6000), language)).raw)),
                                RequirementsEstimate(decodeRequirements(
                                  complete(RequirementsPrompt(Prefix(latest.value.codeText, 8000), frs, nfrs)).raw)))
  {
    if latest.None? then Err(SnapshotNotFound(projectId))
    else if frs == [] && nfrs == [] then Err(NoRequirements(projectId))
    else
      var code := latest.value.codeText;
      match complete(CompilationPrompt(Prefix(code, 6000), language))
      case Failed(e) => Err(OracleRaised(e))
      case Answered(compilationOutput) =>
        var comp := CompilationEstimate(decodeCompilation(compilationOutput));
        match complete(RequirementsPrompt(Prefix(code, 8000), frs, nfrs))
        case Failed(e) => Err(OracleRaised(e))
        case Answered(rawOutput) =>
          var req := RequirementsEstimate(decodeRequirements(rawOutput));
          Ok(Assess(projectId, latest.value.commitId, comp, req))
  }

  /** The two `ValueError`s come before the oracle is asked anything: they
      are the same whatever the oracle would answer. */
  lemma ErrorsBeforeOracle(projectId: string, language: string, latest: Option<Snapshot>,
                           frs: seq<string>, nfrs: seq<string>,
                           complete: RiskPrompt -> Answer, complete': RiskPrompt -> Answer,
                           decodeCompilation: string -> CompilationReply,
                           decodeRequirements: string -> RequirementsReply)
    requires latest.None? || (frs == [] && nfrs == [])
    ensures CalculateRisk(projectId, language, latest, frs, nfrs, complete, decodeCompilation, decodeRequirements)
            == CalculateRisk(projectId, language, latest, frs, nfrs, complete', decodeCompilation, decodeRequirements)
    ensures CalculateRisk(projectId, language, latest, frs, nfrs, complete, decodeCompilation, decodeRequirements).Err?
  {
  }

  /** When neither reply parses every rate is 0, so the score is 1.0, which
      lies in no band: the level is "Unknown" and the decision "Release". */
  lemma BothParsesFail(projectId: string, language: string, s: Snapshot,
                       frs: seq<string>, nfrs: seq<string>,
                       complete: RiskPrompt -> Answer,
                       decodeCompilation: string -> CompilationReply,
                       decodeRequirements: string -> RequirementsReply)
    requires frs != [] || nfrs != []
    requires complete(CompilationPrompt(Prefix(s.codeText, 6000), language)).Answered?
    requires complete(RequirementsPrompt(Prefix(s.codeText, 8000), frs, nfrs)).Answered?
    requires decodeCompilation(complete(CompilationPrompt(Prefix(s.codeText, 6000), language)).raw).CompilationUnparsed?
    requires decodeRequirements(complete(RequirementsPrompt(Prefix(s.codeText, 8000), frs, nfrs)).raw).RequirementsUnparsed?
    ensures var r := CalculateRisk(projectId, language, Some(s), frs, nfrs, complete, decodeCompilation, decodeRequirements);
            && r.Ok?
            && r.value.1.riskScore == 1.0 && r.value.0.riskScore == 100.0
            && r.value.0.frCompletionRate == 0.0 && r.value.0.nfrCompletionRate == 0.0
            && r.value.0.compilationSuccessRate == 0.0
            && r.value.0.riskLevel == UNKNOWN_LEVEL
            && r.value.0.releaseDecision == "Release"
  {
    RiskLevelBands(1.0);
  }

  /** The rates are not clamped: a reply claiming more than full completion
      drives the score below 0, out of every band, and the decision to
      "Do Not Release". */
  lemma OverfullRatesAreUnknown(fr: real, nfr: real, compilation: real)
    requires fr >= 1.0 && nfr >= 1.0 && compilation >= 1.0 && fr + nfr + compilation > 3.0
    ensures LevelOf(RISK_LEVELS, RiskScore(fr, nfr, compilation)) == UNKNOWN_LEVEL
    ensures ReleaseDecision(RiskScore(fr, nfr, compilation)) == DoNotRelease
  {
    RiskLevelBands(RiskScore(fr, nfr, compilation));
  }
}
