/**
 * The extractors that return one fixed-shape value rather than a list
 * (backend/extractors/): the project name, the meeting pulse, the health
 * signals and the pain points. Each is total: a failed call or an
 * unusable answer gives a fixed fallback.
 */
module ProjectName {
  import opened Wrappers
  import opened Strings

  const MaxNameLength := 100
  const DefaultName := "Unnamed Project"

  /** The model's answer stripped of whitespace, then of `"`, then of `'`, and cut to 100 characters. */
  function CleanName(raw: string): (n: string)
    ensures |n| <= MaxNameLength
    ensures n == [] || n[0] != '\''
  {
    Truncate(StripChar(StripChar(Strip(raw), '"'), '\''), MaxNameLength)
  }

  /** Answers that mean the model could not tell: empty, "UNSURE" in any case, or one of the placeholders. */
  predicate IsUnsure(n: string) {
    n == [] || Upper(n) == "UNSURE"
    || Lower(n) in ["unsure", "unknown", "unnamed project", "general discussion"]
  }

  /** The stripped meeting title cut to 100 characters when it is not blank, else the default name. */
  function Fallback(title: Option<string>): (r: string)
    ensures r != [] && |r| <= MaxNameLength
  {
    if title.Some? && title.value != [] && Strip(title.value) != [] then Truncate(Strip(title.value), MaxNameLength)
    else DefaultName
  }

  /** `ProjectNameExtractor.extract`, given what `generate` returned or raised. */
  function ExtractName(generated: Result<string>, title: Option<string>): (r: string)
    ensures r != [] && |r| <= MaxNameLength
  {
    match generated
    case Err(_) => Fallback(title)
    case Ok(raw) =>
      var n := CleanName(raw);
      if IsUnsure(n) then Fallback(title) else n
  }

  /**
   * The name is the model's cleaned answer unless that answer is unsure;
   * an unsure answer or a failed call gives the title fallback, so an
   * unsure value is returned only when it is what the fallback says.
   */
  lemma ExtractNameSource(generated: Result<string>, title: Option<string>)
    ensures generated.Ok? && !IsUnsure(CleanName(generated.value)) ==> ExtractName(generated, title) == CleanName(generated.value)
    ensures generated.Err? || IsUnsure(CleanName(generated.value)) ==> ExtractName(generated, title) == Fallback(title)
    ensures IsUnsure(ExtractName(generated, title)) ==> ExtractName(generated, title) == Fallback(title)
  {
  }

  /** With a title that is not blank, the fallback is that title, stripped and cut to 100 characters. */
  lemma FallbackToTitle(title: string)
    requires Strip(title) != []
    ensures Fallback(Some(title)) == Truncate(Strip(title), MaxNameLength)
    ensures Strip(title) == Fallback(Some(title)) + Strip(title)[|Fallback(Some(title))|..]
  {
  }
}

module Pulse {
  import opened Wrappers
  import opened JsonValues

  /** The meeting pulse; the score is a float in [0, 1]. */
  datatype Pulse = Pulse(
    overallSentiment: Json, sentimentScore: real, tone: Json,
    speakerSentiments: Json, behavioralCues: Json, keyInsights: Json)

  /** What `extract` returns when anything raised. */
  const Neutral := Pulse(JStr("neutral"), 0.5, JArr([]), JArr([]), JArr([]), JArr([]))

  /**
   * Python's `float(v)`: numbers as they are, booleans as 0 or 1, strings
   * through `parse` (None when the text is not a float), anything else a
   * `TypeError`.
   */
  function ToFloat(v: Json, parse: string -> Option<real>): (r: Result<real>)
    ensures v.JNum? ==> r == Ok(v.n)
    ensures v.JBool? ==> r == Ok(if v.b then 1.0 else 0.0)
    ensures v.JStr? ==> (r.Ok? <==> parse(v.s).Some?)
    ensures v.JNull? || v.JArr? || v.JObj? ==> r.Err?
  {
    match v
    case JNum(n) => Ok(n)
    case JBool(b) => Ok(if b then 1.0 else 0.0)
    case JStr(s) =>
      (match parse(s)
       case Some(x) => Ok(x)
       case None => Err("ValueError: could not convert string to float"))
    case _ => Err("TypeError: float() argument must be a string or a number")
  }

  /** `max(0.0, min(1.0, x))`. */
  function Clamp(x: real): (r: real)
    ensures 0.0 <= r <= 1.0
    ensures 0.0 <= x <= 1.0 ==> r == x
    ensures x < 0.0 ==> r == 0.0
    ensures x > 1.0 ==> r == 1.0
  {
    var m := if x < 1.0 then x else 1.0;
    if m > 0.0 then m else 0.0
  }

  /** `PulseExtractor.extract`, given what `generate_json` returned or raised. */
  function ExtractPulse(response: Result<Json>, parse: string -> Option<real>): (p: Pulse)
    ensures 0.0 <= p.sentimentScore <= 1.0
  {
    match response
    case Ok(JObj(d)) =>
      (match ToFloat(Get(d, "sentiment_score", JNum(0.5)), parse)
       case Ok(x) =>
         Pulse(Get(d, "overall_sentiment", JStr("neutral")), Clamp(x), Get(d, "tone", JArr([])),
               Get(d, "speaker_sentiments", JArr([])), Get(d, "behavioral_cues", JArr([])),
               Get(d, "key_insights", JArr([])))
       case Err(_) => Neutral)
    case _ => Neutral
  }

  /**
   * A dict answer whose score converts: every field is copied or takes its
   * default, and the score is the converted value clamped into [0, 1]; a
   * missing score reads 0.5.
   */
  lemma ExtractPulseFields(d: map<string, Json>, parse: string -> Option<real>)
    requires ToFloat(Get(d, "sentiment_score", JNum(0.5)), parse).Ok?
    ensures var p := ExtractPulse(Ok(JObj(d)), parse);
      && p.overallSentiment == (if "overall_sentiment" in d then d["overall_sentiment"] else JStr("neutral"))
      && p.sentimentScore == (if "sentiment_score" in d then Clamp(ToFloat(d["sentiment_score"], parse).value) else 0.5)
      && p.tone == (if "tone" in d then d["tone"] else JArr([]))
      && p.speakerSentiments == (if "speaker_sentiments" in d then d["speaker_sentiments"] else JArr([]))
      && p.behavioralCues == (if "behavioral_cues" in d then d["behavioral_cues"] else JArr([]))
      && p.keyInsights == (if "key_insights" in d then d["key_insights"] else JArr([]))
  {
  }

  /** A failed call, an answer that is not a dict, or a score that does not convert gives the neutral pulse. */
  lemma ExtractPulseFallback(response: Result<Json>, parse: string -> Option<real>)
    requires response.Err? || !response.value.JObj?
      || ToFloat(Get(response.value.fields, "sentiment_score", JNum(0.5)), parse).Err?
    ensures ExtractPulse(response, parse) == Neutral
  {
  }
}

module Health {
  import opened Wrappers
  import opened JsonValues

  datatype Health = Health(owners: Json, blockers: Json, risks: Json, commitmentSignals: Json)

  const NoSignals := Health(JArr([]), JArr([]), JArr([]), JArr([]))

  /** `HealthExtractor.extract`, given what `generate_json` returned or raised. */
  function ExtractHealth(response: Result<Json>): (h: Health)
    ensures response.Ok? && response.value.JObj? ==>
      var d := response.value.fields;
      && h.owners == (if "owners" in d then d["owners"] else JArr([]))
      && h.blockers == (if "blockers" in d then d["blockers"] else JArr([]))
      && h.risks == (if "risks" in d then d["risks"] else JArr([]))
      && h.commitmentSignals == (if "commitment_signals" in d then d["commitment_signals"] else JArr([]))
    ensures !(response.Ok? && response.value.JObj?) ==> h == NoSignals
  {
    match response
    case Ok(JObj(d)) =>
      Health(Get(d, "owners", JArr([])), Get(d, "blockers", JArr([])),
             Get(d, "risks", JArr([])), Get(d, "commitment_signals", JArr([])))
    case _ => NoSignals
  }
}

module PainPoints {
  import opened Wrappers
  import opened JsonValues

  datatype PainPoints = PainPoints(projectSpecific: Json, general: Json)

  const NoPainPoints := PainPoints(JArr([]), JArr([]))

  /** `PainPointsExtractor.extract`, given what `generate_json` returned or raised. */
  function ExtractPainPoints(response: Result<Json>): (p: PainPoints)
    ensures response.Ok? && response.value.JObj? ==>
      var d := response.value.fields;
      && p.projectSpecific == (if "project_specific" in d then d["project_specific"] else JArr([]))
      && p.general == (if "general" in d then d["general"] else JArr([]))
    ensures !(response.Ok? && response.value.JObj?) ==> p == NoPainPoints
  {
    match response
    case Ok(JObj(d)) => PainPoints(Get(d, "project_specific", JArr([])), Get(d, "general", JArr([])))
    case _ => NoPainPoints
  }
}
