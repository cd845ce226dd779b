/** The client-side calls to the language and image models
    (services/geminiService.ts). The model service itself is outside the
    model: each call's outcome is a parameter. */
module GeminiService {
  import opened Wrappers
  import opened Types
  import opened Strings

  /** The arguments of `resolveTurn`; all but the two actions only shape the prompt. */
  datatype TurnRequest = TurnRequest(
    p1Name: string,
    p1Action: string,
    p1Trait: TraitType,
    p2Name: string,
    p2Action: string,
    p2Trait: TraitType,
    historySummary: string)

  /** The four fields the model's structured reply is parsed into. */
  datatype Verdict = Verdict(winner: Winner, damage: int, narration: string, crit: bool)

  /** What the language-model call did: it threw (network, SDK or key
      failure), or it answered with `text`, which parses to a verdict or
      makes `JSON.parse` (or the field reads after it) throw. */
  datatype ModelReply =
    | CallFailed
    | Replied(text: string, parsed: Option<Verdict>)

  const FALLBACK_DAMAGE := 5
  const FALLBACK_NARRATION := "次元の歪みにより、判別不能！両者に軽微なダメージ。"

  /** The reply yields a verdict: the call returned, its text is non-empty
      and it parsed. */
  predicate Usable(reply: ModelReply) {
    reply.Replied? && reply.text != "" && reply.parsed.Some?
  }

  /** The fixed result of the catch block: a light draw. */
  function Fallback(p1Action: string, p2Action: string): (r: TurnResult)
    ensures r.winner == Draw && r.damage == FALLBACK_DAMAGE && !r.crit
    ensures r.narration == FALLBACK_NARRATION && r.imageUrl == None
    ensures r.p1Action == p1Action && r.p2Action == p2Action
  {
    TurnResult(Draw, FALLBACK_DAMAGE, FALLBACK_NARRATION, p1Action, p2Action, false, None)
  }

  /** `resolveTurn`: every failure (the call throwing, empty text, an
      unparseable reply) is caught and turned into the fallback, so a result
      always comes back; the actions are always the caller's. */
  function ResolveTurn(req: TurnRequest, reply: ModelReply): (r: TurnResult)
    ensures r.p1Action == req.p1Action && r.p2Action == req.p2Action
    ensures r.imageUrl == None
    ensures Usable(reply) ==>
      var v := reply.parsed.value;
      r.winner == v.winner && r.damage == v.damage && r.narration == v.narration && r.crit == v.crit
    ensures !Usable(reply) ==> r == Fallback(req.p1Action, req.p2Action)
  {
    match reply
    case CallFailed => Fallback(req.p1Action, req.p2Action)
    case Replied(text, parsed) =>
      if text == "" then Fallback(req.p1Action, req.p2Action)
      else
        match parsed
        case None => Fallback(req.p1Action, req.p2Action)
        case Some(v) => TurnResult(v.winner, v.damage, v.narration, req.p1Action, req.p2Action, v.crit, None)
  }

  /** Names, traits and history reach the model only through the prompt:
      for a given reply the result depends on the two actions alone. */
  lemma ResolveTurnDependsOnlyOnActions(a: TurnRequest, b: TurnRequest, reply: ModelReply)
    requires a.p1Action == b.p1Action && a.p2Action == b.p2Action
    ensures ResolveTurn(a, reply) == ResolveTurn(b, reply)
  {
  }

  /** One part of the image model's reply; `inlineData` holds base64 image data. */
  datatype Part = Part(inlineData: Option<string>)

  /** What the image-model call did: it threw, or it answered with candidates,
      each a list of content parts. */
  datatype ImageReply =
    | ImageCallFailed
    | ImageReplied(candidates: seq<seq<Part>>)

  const IMAGE_URL_PREFIX := "data:image/png;base64,"

  /** The parts of the first candidate, when there is one. */
  function FirstCandidateParts(reply: ImageReply): seq<Part> {
    if reply.ImageReplied? && |reply.candidates| > 0 then reply.candidates[0] else []
  }

  predicate HasData(p: Part) {
    p.inlineData.Some?
  }

  /** `i` is the first part that carries inline data. */
  predicate IsFirstWithData(parts: seq<Part>, i: int) {
    0 <= i < |parts| && HasData(parts[i]) && forall j :: 0 <= j < i ==> !HasData(parts[j])
  }

  /** `generateBattleIllustration`: scans the first candidate's parts and
      returns a PNG data URL for the first that has inline data; null when
      none has, when there is no candidate (reading `candidates[0]` throws)
      or when the call throws. */
  method GenerateBattleIllustration(reply: ImageReply) returns (url: Option<string>)
    ensures url.Some? <==> exists i :: 0 <= i < |FirstCandidateParts(reply)| && HasData(FirstCandidateParts(reply)[i])
    ensures url.Some? ==> exists i :: (IsFirstWithData(FirstCandidateParts(reply), i) &&
      url.value == IMAGE_URL_PREFIX + FirstCandidateParts(reply)[i].inlineData.value)
    // every URL returned passes the caller's `if (imageUrl)`
    ensures url.Some? ==> Truthy(url)
  {
    if reply.ImageCallFailed? || |reply.candidates| == 0 {
      return None;
    }
    var parts := reply.candidates[0];
    assert parts == FirstCandidateParts(reply);
    var k := 0;
    while k < |parts|
      invariant 0 <= k <= |parts|
      invariant forall j :: 0 <= j < k ==> !HasData(parts[j])
    {
      if parts[k].inlineData.Some? {
        assert IsFirstWithData(parts, k) && HasData(parts[k]);
        IllustrationUrlNonEmpty(parts[k].inlineData.value);
        return Some(IMAGE_URL_PREFIX + parts[k].inlineData.value);
      }
      k := k + 1;
    }
    return None;
  }

  /** An illustration URL is never the empty string, so the caller's
      truthiness test accepts every one. */
  lemma IllustrationUrlNonEmpty(data: string)
    ensures IMAGE_URL_PREFIX + data != ""
  {
    assert |IMAGE_URL_PREFIX + data| >= |IMAGE_URL_PREFIX|;
  }
}
