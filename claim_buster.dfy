/** The ClaimBuster reply as the handler sees it, the order in which it
    validates that reply, and the two values it derives from the score:
    the confidence (`Math.round(score * 100)`) and the broadcast status. */
module ClaimBuster {
  import opened Wrappers
  import opened Records

  /** The `score` field of `results[0]`: a JSON number, or anything else
      (string, boolean, null, absent, object, array). */
  datatype ScoreField = Number(value: real) | NotNumber

  /** `results[0]`: JSON `null`, or any other value, whose `score` field is
      read (a number, string or boolean element reads as having no score). */
  datatype FirstResult = NullResult | ResultValue(score: ScoreField)

  /** What `JSON.parse` makes of the reply text, as far as the handler looks:
      - `Unparsable`: `JSON.parse` throws;
      - `NullBody`: the text is `null`, so reading `.results` throws;
      - `NoResults`: `results` is absent or falsy (false, 0, "", null);
      - `ResultsNotArray`: `results` is truthy but not an array;
      - `ResultsArray(None)`: `results` is the empty array;
      - `ResultsArray(Some(first))`: a non-empty array starting with `first`. */
  datatype ReplyBody =
    | Unparsable
    | NullBody
    | NoResults
    | ResultsNotArray
    | ResultsArray(first: Option<FirstResult>)

  /** The outcome of the POST to ClaimBuster: `fetch` or the reading of the
      reply text rejected (with the runtime's error message, whatever the
      status), or a response with its HTTP status, its raw text, and that
      text parsed. */
  datatype Reply =
    | Unreachable(message: string)
    | Received(httpStatus: int, text: string, body: ReplyBody)

  const InvalidJson: string := "Invalid JSON response from ClaimBuster API"
  const InvalidStructure: string := "Invalid response structure from ClaimBuster API"
  const InvalidScore: string := "Invalid score format from ClaimBuster API"
  /** The TypeError messages of the Deno runtime (V8) for a property read on `null`. */
  const NullBodyRead: string := "Cannot read properties of null (reading 'results')"
  const NullResultRead: string := "Cannot read properties of null (reading 'score')"

  function ApiError(text: string): (m: string)
    ensures |m| == 23 + |text| && m[..23] == "ClaimBuster API error: " && m[23..] == text
  {
    "ClaimBuster API error: " + text
  }

  /** `Response.ok`: the status is in the range 200-299. */
  function IsOk(httpStatus: int): (ok: bool)
    ensures ok <==> httpStatus / 100 == 2
  {
    200 <= httpStatus <= 299
  }

  /** The reply carries a usable score: an OK response whose parsed body has a
      non-empty `results` array whose first element has a numeric `score`. */
  predicate Usable(reply: Reply) {
    && reply.Received?
    && IsOk(reply.httpStatus)
    && reply.body.ResultsArray?
    && reply.body.first.Some?
    && reply.body.first.value.ResultValue?
    && reply.body.first.value.score.Number?
  }

  /** The checks of the handler on the reply, in source order; the first
      that fails decides the error message. */
  function ScoreOf(reply: Reply): (r: Result<real>)
    ensures r.Ok? <==> Usable(reply)
    ensures r.Ok? ==> r.value == reply.body.first.value.score.value
    ensures reply.Unreachable? ==> r == Err(reply.message)
    ensures r.Err? ==> r.message in {InvalidJson, InvalidStructure, InvalidScore, NullBodyRead, NullResultRead}
                       || (reply.Unreachable? && r.message == reply.message)
                       || (reply.Received? && !IsOk(reply.httpStatus) && r.message == ApiError(reply.text))
  {
    match reply
    case Unreachable(message) => Err(message)
    case Received(httpStatus, text, body) =>
      if !IsOk(httpStatus) then Err(ApiError(text))
      else
        match body
        case Unparsable => Err(InvalidJson)
        case NullBody => Err(NullBodyRead)
        case NoResults => Err(InvalidStructure)
        case ResultsNotArray => Err(InvalidStructure)
        case ResultsArray(None) => Err(InvalidStructure)
        case ResultsArray(Some(NullResult)) => Err(NullResultRead)
        case ResultsArray(Some(ResultValue(NotNumber))) => Err(InvalidScore)
        case ResultsArray(Some(ResultValue(Number(score)))) => Ok(score)
  }

  /** A non-OK status is reported before the body is looked at: the error
      depends on the status and the raw text alone. */
  lemma StatusCheckedBeforeBody(httpStatus: int, text: string, b1: ReplyBody, b2: ReplyBody)
    requires !IsOk(httpStatus)
    ensures ScoreOf(Received(httpStatus, text, b1)) == ScoreOf(Received(httpStatus, text, b2))
                                                   == Err(ApiError(text))
  {
  }

  /** For an OK response, each malformed body yields its own message; a
      `null` body or a `null` first result ends in the runtime's TypeError. */
  lemma MalformedBodyMessages(httpStatus: int, text: string)
    requires IsOk(httpStatus)
    ensures ScoreOf(Received(httpStatus, text, Unparsable)) == Err(InvalidJson)
    ensures ScoreOf(Received(httpStatus, text, NoResults)) == Err(InvalidStructure)
    ensures ScoreOf(Received(httpStatus, text, ResultsNotArray)) == Err(InvalidStructure)
    ensures ScoreOf(Received(httpStatus, text, ResultsArray(None))) == Err(InvalidStructure)
    ensures ScoreOf(Received(httpStatus, text, ResultsArray(Some(ResultValue(NotNumber))))) == Err(InvalidScore)
    ensures ScoreOf(Received(httpStatus, text, NullBody)) == Err(NullBodyRead)
    ensures ScoreOf(Received(httpStatus, text, ResultsArray(Some(NullResult)))) == Err(NullResultRead)
  {
  }

  /** `Math.round(score * 100)`: the integer nearest to `score * 100`, halves
      rounded up. The score is not range-checked, so neither is the result. */
  function Confidence(score: real): (c: int)
    ensures score * 100.0 - 0.5 < c as real <= score * 100.0 + 0.5
  {
    (score * 100.0 + 0.5).Floor
  }

  /** Rounding is monotonic: a higher score never gives a lower confidence. */
  lemma ConfidenceMonotonic(s1: real, s2: real)
    requires s1 <= s2
    ensures Confidence(s1) <= Confidence(s2)
  {
  }

  /** The status written with the confidence: `flagged` above 80, `pending`
      otherwise. `verified` and `debunked` are never produced. */
  function StatusFor(confidence: int): (s: Status)
    ensures s == Flagged <==> confidence > 80
    ensures s == Pending <==> confidence <= 80
  {
    if confidence > 80 then Flagged else Pending
  }

  /** The threshold is strict: a score of 0.8 stays pending, 0.81 is flagged. */
  lemma StatusThreshold()
    ensures Confidence(0.80) == 80 && StatusFor(Confidence(0.80)) == Pending
    ensures Confidence(0.81) == 81 && StatusFor(Confidence(0.81)) == Flagged
  {
  }
}
