/**
 * The `POST` handler of app/api/ai/analysis/route.ts: reject an empty grade
 * list, sanitise at most 60 grades, build the prompt's data object, send one
 * request to the language model, and map its reply to a response. The model
 * call and `JSON.parse` are parameters.
 */
module AiAnalysis {

  import opened Wrappers
  import opened Text
  import opened Json

  const MaxGrades: nat := 60
  const MaxSubjectLength: nat := 64
  const ScaleMax: real := 20.0
  const ModelName: string := "gpt-4o-mini"
  const Temperature: real := 0.2
  const ParseFailureReason: string := "Parsing JSON échoué"

  /** A grade as the client sent it; a missing or falsy `subject` is absent. */
  datatype RawGrade = RawGrade(subject: Option<string>, value: real, coef: Option<real>, date: Option<string>)

  datatype ChildInput = ChildInput(firstName: Option<string>, lastName: Option<string>, gradeLevel: Option<string>)

  /** The request body; `grades` is absent when it is not an array. */
  datatype AnalysisBody = AnalysisBody(child: Option<ChildInput>, grades: Option<seq<RawGrade>>)

  /** A grade as it goes into the prompt. */
  datatype GradeInput = GradeInput(subject: string, value: real, coef: Option<real>, date: Option<string>)

  /** The child descriptor of the prompt; `null` is absent. */
  datatype ChildDescriptor = ChildDescriptor(firstName: Option<string>, gradeLevel: Option<string>)

  datatype Rules = Rules(scale: int, considerDate: bool, frenchScale: bool)

  /** The data message, `JSON.stringify`'d into the user turn. */
  datatype PromptData = PromptData(child: ChildDescriptor, grades: seq<GradeInput>, rules: Rules)

  /** One chat-completion request: the fixed model, temperature and JSON mode around the data message. */
  datatype ModelRequest = ModelRequest(model: string, temperature: real, jsonMode: bool, data: PromptData)

  datatype AnalysisResponse =
    | BadRequest(message: string)
    | ServerError(message: string)
    | Analysed(analysis: Json, model: string)
  {
    function Status(): int {
      match this
      case BadRequest(_) => 400
      case ServerError(_) => 500
      case Analysed(_, _) => 200
    }
  }

  /** `Math.max(0, Math.min(20, v))`. */
  function Clamp(v: real): (r: real)
    ensures 0.0 <= r <= ScaleMax
    ensures 0.0 <= v <= ScaleMax ==> r == v
    ensures v < 0.0 ==> r == 0.0
    ensures v > ScaleMax ==> r == ScaleMax
  {
    if v < 0.0 then 0.0 else if v > ScaleMax then ScaleMax else v
  }

  /** `String(g.subject || '').slice(0, 64)`. */
  function SanitizeSubject(subject: Option<string>): (r: string)
    ensures |r| <= MaxSubjectLength && |r| <= |OrEmpty(subject)|
    ensures r == OrEmpty(subject)[..|r|]
    ensures |OrEmpty(subject)| <= MaxSubjectLength ==> r == OrEmpty(subject)
    ensures |OrEmpty(subject)| > MaxSubjectLength ==> |r| == MaxSubjectLength
  {
    var s := OrEmpty(subject);
    if |s| <= MaxSubjectLength then s else s[..MaxSubjectLength]
  }

  /** The per-grade map: coefficient kept iff present, date kept iff truthy. */
  function SanitizeGrade(g: RawGrade): (r: GradeInput)
    ensures r.subject == SanitizeSubject(g.subject)
    ensures r.value == Clamp(g.value)
    ensures r.coef == g.coef
    ensures r.date.Some? <==> Truthy(g.date)
    ensures r.date.Some? ==> r.date == g.date
  {
    GradeInput(SanitizeSubject(g.subject), Clamp(g.value), g.coef, if Truthy(g.date) then g.date else None)
  }

  /** `grades.slice(0, 60).map(...)`. */
  function Sanitize(grades: seq<RawGrade>): (r: seq<GradeInput>)
    ensures |r| == if |grades| <= MaxGrades then |grades| else MaxGrades
    ensures forall i | 0 <= i < |r| :: r[i] == SanitizeGrade(grades[i])
  {
    var n := if |grades| <= MaxGrades then |grades| else MaxGrades;
    seq(n, i requires 0 <= i < n => SanitizeGrade(grades[i]))
  }

  /** Every grade sent to the model is on the /20 scale and has a subject of at most 64 characters. */
  lemma SanitizedGradesAreBounded(grades: seq<RawGrade>)
    ensures forall g | g in Sanitize(grades) :: 0.0 <= g.value <= ScaleMax && |g.subject| <= MaxSubjectLength
  {
  }

  /** Sanitising 80 grades sends the first 60, in order. */
  lemma KeepsFirstSixty(grades: seq<RawGrade>)
    requires |grades| == 80
    ensures Sanitize(grades) == Sanitize(grades[..60])
  {
    assert forall i | 0 <= i < 60 :: grades[..60][i] == grades[i];
  }

  /** The child descriptor keeps only first name and grade level (`?? null`). */
  function Describe(child: Option<ChildInput>): (r: ChildDescriptor)
    ensures child.None? ==> r == ChildDescriptor(None, None)
    ensures child.Some? ==> r.firstName == child.value.firstName && r.gradeLevel == child.value.gradeLevel
  {
    match child
    case None => ChildDescriptor(None, None)
    case Some(c) => ChildDescriptor(c.firstName, c.gradeLevel)
  }

  /** The request to the model, or absent when the body has no grades (the 400 path, before any call). */
  function Prepare(body: AnalysisBody): (r: Option<ModelRequest>)
    ensures r.None? <==> body.grades.None? || body.grades.value == []
    ensures r.Some? ==> r.value.model == ModelName && r.value.temperature == Temperature && r.value.jsonMode
    ensures r.Some? ==> r.value.data.grades == Sanitize(body.grades.value) && r.value.data.grades != []
    ensures r.Some? ==> r.value.data.child == Describe(body.child)
    ensures r.Some? ==> r.value.data.rules == Rules(20, true, true)
  {
    if body.grades.None? || body.grades.value == [] then None
    else Some(ModelRequest(ModelName, Temperature, true,
                           PromptData(Describe(body.child), Sanitize(body.grades.value), Rules(20, true, true))))
  }

  /** The degraded analysis returned when the reply is not JSON. */
  function Fallback(raw: string): (r: Json)
    ensures Member(r, "perSubject") == Some(JArray([]))
  {
    JObject([
      ("overview", JObject([("summary", JString(raw)), ("highlights", JArray([]))])),
      ("perSubject", JArray([])),
      ("globalTips", JArray([])),
      ("risk", JObject([("level", JString("medium")), ("reasons", JArray([JString(ParseFailureReason)]))]))
    ])
  }

  /** The fallback embeds the raw text as summary, empty lists, and a medium risk naming the parse failure. */
  lemma FallbackShape(raw: string)
    ensures Member(Fallback(raw), "overview") == Some(JObject([("summary", JString(raw)), ("highlights", JArray([]))]))
    ensures Member(Fallback(raw), "globalTips") == Some(JArray([]))
    ensures Member(Fallback(raw), "risk") == Some(JObject([("level", JString("medium")), ("reasons", JArray([JString(ParseFailureReason)]))]))
  {
    var ms := Fallback(raw).members;
    assert Member(JObject(ms[2..]), "risk") == Member(JObject(ms[3..]), "risk") by {
      assert ms[2..][1..] == ms[3..];
    }
  }

  /**
   * `completion.choices?.[0]?.message?.content?.trim()`, then the empty check
   * and `JSON.parse` with its fallback.
   */
  function HandleReply(reply: Option<string>, parse: string -> Option<Json>): (r: AnalysisResponse)
    ensures r.ServerError? <==> reply.None? || AllWhitespace(reply.value)
    ensures r.BadRequest? == false
    ensures r.Analysed? ==> r.model == ModelName
    ensures r.Analysed? && parse(Trim(reply.value)).Some? ==> r.analysis == parse(Trim(reply.value)).value
    ensures r.Analysed? && parse(Trim(reply.value)).None? ==> r.analysis == Fallback(Trim(reply.value))
  {
    if reply.None? then ServerError("Réponse vide du modèle.")
    else
      var raw := Trim(reply.value);
      TrimEmptyIffAllWhitespace(reply.value);
      if raw == "" then ServerError("Réponse vide du modèle.")
      else match parse(raw)
        case Some(analysis) => Analysed(analysis, ModelName)
        case None => Analysed(Fallback(raw), ModelName)
  }

  /** The whole handler: the model is asked only with the prepared request. */
  function Post(body: AnalysisBody, complete: ModelRequest -> Option<string>, parse: string -> Option<Json>): (r: AnalysisResponse)
    ensures r.BadRequest? <==> Prepare(body).None?
    ensures Prepare(body).Some? ==> r == HandleReply(complete(Prepare(body).value), parse)
  {
    match Prepare(body)
    case None => BadRequest("Aucune note fournie.")
    case Some(request) => HandleReply(complete(request), parse)
  }

  /** On an empty or missing grade list the reply does not matter: the model is never consulted. */
  lemma EmptyGradesNeverCallModel(body: AnalysisBody, c1: ModelRequest -> Option<string>, c2: ModelRequest -> Option<string>,
                                  parse: string -> Option<Json>)
    requires body.grades.None? || body.grades.value == []
    ensures Post(body, c1, parse) == Post(body, c2, parse) == BadRequest("Aucune note fournie.")
    ensures Post(body, c1, parse).Status() == 400
  {
  }

  /** A whitespace-only reply is an upstream failure, not a fallback. */
  lemma BlankReplyIsServerError(parse: string -> Option<Json>)
    ensures HandleReply(Some(" \n\t"), parse).Status() == 500
  {
    assert AllWhitespace(" \n\t") by {
      assert IsJsWhitespace(' ') && IsJsWhitespace('\n') && IsJsWhitespace('\t');
    }
  }
}
