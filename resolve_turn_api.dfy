/** The serverless endpoint that judges a turn (api/resolveTurn.ts): request
    validation in a fixed order, then one call to the language model, whose
    outcome is a parameter here. */
module ResolveTurnApi {
  import opened Wrappers
  import opened Types
  import opened Strings
  import GeminiService

  /** The JSON body's fields; a field is absent, or present as a string. */
  datatype Body = Body(
    p1Name: Option<string>,
    p1Action: Option<string>,
    p1Trait: Option<string>,
    p2Name: Option<string>,
    p2Action: Option<string>,
    p2Trait: Option<string>,
    historySummary: Option<string>)

  /** The parts of the incoming request the handler reads; `body` is absent
      when the request has none. */
  datatype Request = Request(httpMethod: string, body: Option<Body>)

  /** A thrown error: its `message`, and what `String(e)` renders it as. */
  datatype Thrown = Thrown(message: string, rendered: string)

  /** What the model call did: it threw, or it answered with `text`, which
      `JSON.parse` turns into a verdict or throws on. */
  datatype Upstream =
    | UpstreamThrew(error: Thrown)
    | UpstreamReplied(text: string, parsed: Result<GeminiService.Verdict, Thrown>)

  /** The status and body the handler sends. */
  datatype Response =
    | PlainText(status: int, text: string)
    | VerdictJson(status: int, winner: Winner, damage: int, narration: string, crit: bool,
                  p1Action: string, p2Action: string)
    | ErrorJson(status: int, error: string)

  /** `req.body ?? {}`: a missing body reads as one with every field absent. */
  function BodyOrEmpty(b: Option<Body>): Body {
    match b
    case Some(body) => body
    case None => Body(None, None, None, None, None, None, None)
  }

  /** All six required fields are truthy; `historySummary` is optional and
      the traits are not checked against the two trait names. */
  predicate FieldsPresent(b: Body) {
    Truthy(b.p1Name) && Truthy(b.p1Action) && Truthy(b.p1Trait) &&
    Truthy(b.p2Name) && Truthy(b.p2Action) && Truthy(b.p2Trait)
  }

  /** The model call produced a verdict. */
  predicate UpstreamOk(u: Upstream) {
    u.UpstreamReplied? && u.text != "" && u.parsed.Success?
  }

  /** `String(e?.message || e)` */
  function ErrorText(e: Thrown): (s: string)
    ensures e.message != "" ==> s == e.message
    ensures e.message == "" ==> s == e.rendered
  {
    if e.message != "" then e.message else e.rendered
  }

  /** `handler(req, res)` given the configured key and the model call's outcome. */
  function Handle(req: Request, apiKey: Option<string>, upstream: Upstream): (res: Response)
    // the method check comes first, whatever else the request holds
    ensures res.status == 405 <==> req.httpMethod != "POST"
    // then the key, before the body is looked at
    ensures res.status == 400 <==>
      req.httpMethod == "POST" && Truthy(apiKey) && !FieldsPresent(BodyOrEmpty(req.body))
    ensures res.status == 500 <==>
      req.httpMethod == "POST" &&
      (!Truthy(apiKey) || (FieldsPresent(BodyOrEmpty(req.body)) && !UpstreamOk(upstream)))
    ensures res.status == 200 <==>
      req.httpMethod == "POST" && Truthy(apiKey) && FieldsPresent(BodyOrEmpty(req.body)) &&
      UpstreamOk(upstream)
    // success: the verdict's four fields and the echoed actions
    ensures res.status == 200 ==>
      var v := upstream.parsed.value;
      var b := BodyOrEmpty(req.body);
      res == VerdictJson(200, v.winner, v.damage, v.narration, v.crit, b.p1Action.value, b.p2Action.value)
    // the guards answer in plain text
    ensures res.status == 405 ==> res == PlainText(405, "Method Not Allowed")
    ensures res.status == 400 ==> res == PlainText(400, "Bad Request")
    ensures req.httpMethod == "POST" && !Truthy(apiKey) ==> res == PlainText(500, "Missing GEMINI_API_KEY")
    // an empty reply is reported in plain text
    ensures (req.httpMethod == "POST" && Truthy(apiKey) && FieldsPresent(BodyOrEmpty(req.body)) &&
             upstream.UpstreamReplied? && upstream.text == "") ==> res == PlainText(500, "No response from AI")
    // a thrown error, from the call or from `JSON.parse`, reports its message
    ensures (req.httpMethod == "POST" && Truthy(apiKey) && FieldsPresent(BodyOrEmpty(req.body)) &&
             upstream.UpstreamThrew?) ==> res == ErrorJson(500, ErrorText(upstream.error))
    ensures (req.httpMethod == "POST" && Truthy(apiKey) && FieldsPresent(BodyOrEmpty(req.body)) &&
             upstream.UpstreamReplied? && upstream.text != "" && upstream.parsed.Failure?) ==>
      res == ErrorJson(500, ErrorText(upstream.parsed.error))
  {
    if req.httpMethod != "POST" then PlainText(405, "Method Not Allowed")
    else if !Truthy(apiKey) then PlainText(500, "Missing GEMINI_API_KEY")
    else
      var b := BodyOrEmpty(req.body);
      if !FieldsPresent(b) then PlainText(400, "Bad Request")
      else
        match upstream
        case UpstreamThrew(e) => ErrorJson(500, ErrorText(e))
        case UpstreamReplied(text, parsed) =>
          if text == "" then PlainText(500, "No response from AI")
          else
            match parsed
            case Failure(e) => ErrorJson(500, ErrorText(e))
            case Success(v) =>
              VerdictJson(200, v.winner, v.damage, v.narration, v.crit, b.p1Action.value, b.p2Action.value)
  }

  /** The endpoint and the client-side resolver agree: a request the endpoint
      answers with 200 carries the same verdict and actions that the client's
      `resolveTurn` returns for the same model reply. */
  lemma EndpointAgreesWithClient(req: Request, apiKey: Option<string>, text: string,
                                 v: GeminiService.Verdict, turn: GeminiService.TurnRequest)
    requires req.httpMethod == "POST" && Truthy(apiKey) && FieldsPresent(BodyOrEmpty(req.body))
    requires text != ""
    requires turn.p1Action == BodyOrEmpty(req.body).p1Action.value
    requires turn.p2Action == BodyOrEmpty(req.body).p2Action.value
    ensures
      var res := Handle(req, apiKey, UpstreamReplied(text, Success(v)));
      var r := GeminiService.ResolveTurn(turn, GeminiService.Replied(text, Some(v)));
      res.status == 200 && res.winner == r.winner && res.damage == r.damage &&
      res.narration == r.narration && res.crit == r.crit &&
      res.p1Action == r.p1Action && res.p2Action == r.p2Action
  {
  }
}
