/** The `process-claim` edge function: for one broadcast id it loads the row,
    scores its content with ClaimBuster, writes the confidence and status
    back to the row, then appends one fact check, and answers with the
    confidence or with a 500 error carrying the message of the first check
    that failed.

    The request (`Request`) is one input. Every other effect outside the two
    tables is an input too (`Environment`): whether
    the row query errors, the API key, ClaimBuster's reply, and whether each
    of the two writes succeeds. `Run` is the whole pass as a function of the
    tables before it; `Store.Handle` performs it step by step on the tables. */
module ProcessClaim {
  import opened Wrappers
  import opened Records
  import opened ClaimBuster
  import opened ScoreText

  /** The body of the request: `req.json()` rejects (with the runtime's
      message), or an object whose `broadcastId` is present or not. */
  datatype RequestBody = Malformed(message: string) | Json(broadcastId: Option<int>)

  datatype Request = Request(httpMethod: string, body: RequestBody)

  /** The outcomes of the calls the handler makes, in the order it makes them. */
  datatype Environment = Environment(
    fetchOk: bool,            // the `broadcasts` select reports no error of its own
    apiKey: Option<string>,   // `CLAIMBUSTER_API_KEY`
    reply: Reply,             // ClaimBuster's answer for the row's content
    updateOk: bool,           // the `broadcasts` update reports no error
    insertOk: bool)           // the `fact_checks` insert reports no error

  /** The JSON body of a response: none (preflight), `{success: true,
      confidence}`, or `{error: message}`. */
  datatype Payload = NoBody | Processed(confidence: int) | Failed(error: string)

  datatype Response = Response(httpStatus: int, payload: Payload)

  const PreflightResponse: Response := Response(200, NoBody)

  function ErrorResponse(message: string): Response {
    Response(500, Failed(message))
  }

  const FetchFailed: string := "Failed to fetch broadcast"
  const KeyMissing: string := "CLAIMBUSTER_API_KEY is not set"
  const UpdateFailed: string := "Failed to update broadcast"
  const InsertFailed: string := "Failed to create fact check"
  const ClaimBusterSource: string := "ClaimBuster API"
  const AiMethod: string := "ai"

  /** The two tables. Fact-check ids come from the table's serial counter. */
  datatype Tables = Tables(
    broadcasts: map<int, Broadcast>,
    factChecks: seq<FactCheck>,
    nextFactCheckId: int)

  /** Primary keys: every broadcast is stored under its own id, fact-check ids
      increase along the table and stay below the counter. */
  ghost predicate WellFormed(t: Tables) {
    && (forall id :: id in t.broadcasts ==> t.broadcasts[id].id == id)
    && (forall i :: 0 <= i < |t.factChecks| ==> t.factChecks[i].id < t.nextFactCheckId)
    && (forall i, j :: 0 <= i < j < |t.factChecks| ==> t.factChecks[i].id < t.factChecks[j].id)
  }

  /** `!apiKey`: an absent key and the empty string both count as missing. */
  function HasKey(apiKey: Option<string>): (present: bool)
    ensures !present <==> apiKey == None || apiKey == Some("")
  {
    apiKey.Some? && apiKey.value != ""
  }

  /** What the checks before any write establish: the row exists and the
      confidence for it. */
  datatype Scored = Scored(id: int, confidence: int)

  /** Every step before the first write, with its error in source order:
      the request body, the row fetch, the API key, then the reply checks. */
  function Prepare(rows: map<int, Broadcast>, body: RequestBody, env: Environment): (r: Result<Scored>)
    ensures r.Ok? <==> && body.Json? && env.fetchOk
                       && body.broadcastId.Some? && body.broadcastId.value in rows
                       && HasKey(env.apiKey) && Usable(env.reply)
    ensures r.Ok? ==> && body.broadcastId == Some(r.value.id)
                      && r.value.confidence == Confidence(env.reply.body.first.value.score.value)
    ensures body.Malformed? ==> r == Err(body.message)
    ensures body.Json? && (!env.fetchOk || body.broadcastId.None? || body.broadcastId.value !in rows)
            ==> r == Err(FetchFailed)
  {
    match body
    case Malformed(message) => Err(message)
    case Json(broadcastId) =>
      // `.single()` reports an error when no row matches; a missing
      // `broadcastId` makes the filter `id=eq.undefined`, which the query
      // rejects. Either way the fetch fails.
      if !env.fetchOk || broadcastId.None? || broadcastId.value !in rows then Err(FetchFailed)
      else if !HasKey(env.apiKey) then Err(KeyMissing)
      else
        match ScoreOf(env.reply)
        case Err(message) => Err(message)
        case Ok(score) => Ok(Scored(broadcastId.value, Confidence(score)))
  }

  /** The row after the update: confidence, `api_processed` and status are
      written, every other column is kept. */
  function MarkProcessed(row: Broadcast, confidence: int): (r: Broadcast)
    ensures r.confidence == Some(confidence) && r.apiProcessed == Some(true)
    ensures r.status == Flagged <==> confidence > 80
    ensures r.status == Pending <==> confidence <= 80
    ensures r.(confidence := row.confidence, apiProcessed := row.apiProcessed, status := row.status) == row
  {
    row.(confidence := Some(confidence), apiProcessed := Some(true), status := StatusFor(confidence))
  }

  /** The inserted fact check for a broadcast and confidence. */
  function NewFactCheck(id: int, broadcastId: int, confidence: int): (f: FactCheck)
    ensures f.id == id && f.explanation == ExplanationFor(confidence)
    ensures f.broadcastId == Some(broadcastId) && f.confidenceScore == Some(confidence)
    ensures f.verificationSource == "ClaimBuster API" && f.verificationMethod == "ai"
    ensures ReadExplanation(f.explanation) == Some(confidence)
  {
    ExplanationRoundTrip(confidence);
    FactCheck(id, Some(broadcastId), ClaimBusterSource, ExplanationFor(confidence), Some(confidence), AiMethod)
  }

  datatype Outcome = Outcome(tables: Tables, response: Response)

  /** One invocation of the handler against the tables `t`. */
  function Run(t: Tables, req: Request, env: Environment): (o: Outcome)
    ensures o.response.httpStatus == 200 <==>
              req.httpMethod == "OPTIONS" || (Prepare(t.broadcasts, req.body, env).Ok? && env.updateOk && env.insertOk)
    ensures o.response.httpStatus != 200 ==> o.response.httpStatus == 500 && o.response.payload.Failed?
  {
    if req.httpMethod == "OPTIONS" then Outcome(t, PreflightResponse)
    else
      match Prepare(t.broadcasts, req.body, env)
      case Err(message) => Outcome(t, ErrorResponse(message))
      case Ok(Scored(id, confidence)) =>
        if !env.updateOk then Outcome(t, ErrorResponse(UpdateFailed))
        else
          var updated := t.(broadcasts := t.broadcasts[id := MarkProcessed(t.broadcasts[id], confidence)]);
          if !env.insertOk then Outcome(updated, ErrorResponse(InsertFailed))
          else
            Outcome(updated.(factChecks := t.factChecks + [NewFactCheck(t.nextFactCheckId, id, confidence)],
                             nextFactCheckId := t.nextFactCheckId + 1),
                    Response(200, Processed(confidence)))
  }

  /** The fact checks of one broadcast, in table order, as the feed selects
      them by `broadcast_id`. */
  function FactChecksOf(factChecks: seq<FactCheck>, id: int): (r: seq<FactCheck>)
    ensures |r| <= |factChecks|
    ensures forall f :: f in r ==> f in factChecks && f.broadcastId == Some(id)
    ensures forall f :: f in factChecks && f.broadcastId == Some(id) ==> f in r
    ensures multiset(r) <= multiset(factChecks)
    ensures forall f: FactCheck :: f.broadcastId == Some(id) ==> multiset(r)[f] == multiset(factChecks)[f]
    decreases |factChecks|
  {
    if factChecks == [] then []
    else
      var last := factChecks[|factChecks| - 1];
      assert factChecks == factChecks[..|factChecks| - 1] + [last];
      FactChecksOf(factChecks[..|factChecks| - 1], id) + (if last.broadcastId == Some(id) then [last] else [])
  }

  lemma FactChecksOfAppend(factChecks: seq<FactCheck>, f: FactCheck, id: int)
    ensures FactChecksOf(factChecks + [f], id)
            == FactChecksOf(factChecks, id) + (if f.broadcastId == Some(id) then [f] else [])
  {
    assert (factChecks + [f])[..|factChecks|] == factChecks;
  }

  /** An OPTIONS request is answered at once and touches nothing. */
  lemma PreflightIsInert(t: Tables, body: RequestBody, env: Environment)
    ensures Run(t, Request("OPTIONS", body), env) == Outcome(t, PreflightResponse)
  {
  }

  /** A failed or empty row fetch is reported as such, and it is checked
      before the key: the answer does not depend on the key, the reply or the
      writes, and the tables stay as they were. */
  lemma FetchFailureWins(t: Tables, req: Request, env1: Environment, env2: Environment)
    requires req.httpMethod != "OPTIONS" && req.body.Json?
    requires !env1.fetchOk || req.body.broadcastId.None? || req.body.broadcastId.value !in t.broadcasts
    requires env2.fetchOk == env1.fetchOk
    ensures Run(t, req, env1) == Run(t, req, env2) == Outcome(t, ErrorResponse(FetchFailed))
  {
  }

  /** With the row found, each failing check before the writes yields its own
      error, the first in source order winning, and writes nothing. */
  lemma CheckFailuresWriteNothing(t: Tables, id: int, m: string, env: Environment)
    requires m != "OPTIONS" && env.fetchOk && id in t.broadcasts
    ensures !HasKey(env.apiKey)
            ==> Run(t, Request(m, Json(Some(id))), env) == Outcome(t, ErrorResponse(KeyMissing))
    ensures HasKey(env.apiKey) && !Usable(env.reply)
            ==> Run(t, Request(m, Json(Some(id))), env) == Outcome(t, ErrorResponse(ScoreOf(env.reply).message))
  {
  }

  /** A request body that `req.json()` rejects ends the pass with the
      runtime's message and writes nothing. */
  lemma MalformedBodyWritesNothing(t: Tables, m: string, message: string, env: Environment)
    requires m != "OPTIONS"
    ensures Run(t, Request(m, Malformed(message)), env) == Outcome(t, ErrorResponse(message))
  {
  }

  /** A failed update writes nothing and inserts no fact check. */
  lemma UpdateFailureInsertsNothing(t: Tables, req: Request, env: Environment)
    requires req.httpMethod != "OPTIONS" && Prepare(t.broadcasts, req.body, env).Ok?
    requires !env.updateOk
    ensures Run(t, req, env) == Outcome(t, ErrorResponse(UpdateFailed))
  {
  }

  /** A failed insert still leaves the broadcast updated, yet the answer is an
      error: the two writes are not one transaction. */
  lemma InsertFailureKeepsUpdate(t: Tables, req: Request, env: Environment)
    requires req.httpMethod != "OPTIONS" && Prepare(t.broadcasts, req.body, env).Ok?
    requires env.updateOk && !env.insertOk
    ensures var s := Prepare(t.broadcasts, req.body, env).value;
            && Run(t, req, env).tables.broadcasts == t.broadcasts[s.id := MarkProcessed(t.broadcasts[s.id], s.confidence)]
            && Run(t, req, env).tables.factChecks == t.factChecks
            && Run(t, req, env).response == ErrorResponse(InsertFailed)
  {
  }

  /** A successful pass updates exactly the target row and appends exactly
      one fact check for it, leaving every other row and earlier fact check as
      it was; the response, the row and the fact check carry the same
      confidence. */
  lemma SuccessfulPass(t: Tables, req: Request, env: Environment)
    requires req.httpMethod != "OPTIONS" && Prepare(t.broadcasts, req.body, env).Ok?
    requires env.updateOk && env.insertOk
    ensures var s := Prepare(t.broadcasts, req.body, env).value;
            var o := Run(t, req, env);
            && o.response == Response(200, Processed(s.confidence))
            && o.tables.broadcasts.Keys == t.broadcasts.Keys
            && o.tables.broadcasts[s.id] == MarkProcessed(t.broadcasts[s.id], s.confidence)
            && (forall id :: id in t.broadcasts && id != s.id ==> o.tables.broadcasts[id] == t.broadcasts[id])
            && |o.tables.factChecks| == |t.factChecks| + 1
            && o.tables.factChecks[..|t.factChecks|] == t.factChecks
            && o.tables.factChecks[|t.factChecks|] == NewFactCheck(t.nextFactCheckId, s.id, s.confidence)
  {
    var o := Run(t, req, env);
    assert o.tables.factChecks[..|t.factChecks|] == t.factChecks;
  }

  /** Seen per broadcast, as the feed reads it: a successful pass adds one
      fact check to the target's list and none to any other's. */
  lemma SuccessAddsOneFactCheckPerTarget(t: Tables, req: Request, env: Environment, other: int)
    requires req.httpMethod != "OPTIONS" && Prepare(t.broadcasts, req.body, env).Ok?
    requires env.updateOk && env.insertOk
    ensures var s := Prepare(t.broadcasts, req.body, env).value;
            var after := Run(t, req, env).tables.factChecks;
            && FactChecksOf(after, s.id)
               == FactChecksOf(t.factChecks, s.id) + [NewFactCheck(t.nextFactCheckId, s.id, s.confidence)]
            && (other != s.id ==> FactChecksOf(after, other) == FactChecksOf(t.factChecks, other))
  {
    var s := Prepare(t.broadcasts, req.body, env).value;
    var f := NewFactCheck(t.nextFactCheckId, s.id, s.confidence);
    FactChecksOfAppend(t.factChecks, f, s.id);
    FactChecksOfAppend(t.factChecks, f, other);
  }

  /** On well-formed tables the inserted fact check gets an id no earlier
      fact check has, and the updated row keeps its key. */
  lemma SuccessKeepsKeysUnique(t: Tables, req: Request, env: Environment)
    requires WellFormed(t)
    requires req.httpMethod != "OPTIONS" && Prepare(t.broadcasts, req.body, env).Ok?
    requires env.updateOk && env.insertOk
    ensures var s := Prepare(t.broadcasts, req.body, env).value;
            var o := Run(t, req, env).tables;
            && o.broadcasts[s.id].id == s.id
            && (forall f :: f in t.factChecks ==> f.id < o.factChecks[|t.factChecks|].id)
  {
    var o := Run(t, req, env).tables;
    assert o.factChecks[..|t.factChecks|] == t.factChecks;
  }

  /** Every pass keeps the tables' keys well formed. */
  lemma RunKeepsWellFormed(t: Tables, req: Request, env: Environment)
    requires WellFormed(t)
    ensures WellFormed(Run(t, req, env).tables)
  {
  }

  /** Nothing guards against running twice: a second successful pass with the
      same inputs leaves the broadcasts as the first left them, but appends a
      second fact check for the same broadcast. */
  lemma RerunDuplicatesFactCheck(t: Tables, req: Request, env: Environment)
    requires req.httpMethod != "OPTIONS" && Prepare(t.broadcasts, req.body, env).Ok?
    requires env.updateOk && env.insertOk
    ensures var once := Run(t, req, env).tables;
            var twice := Run(once, req, env).tables;
            var s := Prepare(t.broadcasts, req.body, env).value;
            && twice.broadcasts == once.broadcasts
            && |FactChecksOf(twice.factChecks, s.id)| == |FactChecksOf(t.factChecks, s.id)| + 2
  {
    var once := Run(t, req, env).tables;
    var twice := Run(once, req, env).tables;
    var s := Prepare(t.broadcasts, req.body, env).value;
    var row := t.broadcasts[s.id];
    assert once.broadcasts == t.broadcasts[s.id := MarkProcessed(row, s.confidence)];
    assert Prepare(once.broadcasts, req.body, env) == Ok(s);
    assert MarkProcessed(MarkProcessed(row, s.confidence), s.confidence) == MarkProcessed(row, s.confidence);
    assert twice.broadcasts == once.broadcasts;
    SuccessAddsOneFactCheckPerTarget(t, req, env, s.id);
    SuccessAddsOneFactCheckPerTarget(once, req, env, s.id);
    var before, middle, after := FactChecksOf(t.factChecks, s.id), FactChecksOf(once.factChecks, s.id), FactChecksOf(twice.factChecks, s.id);
    assert |middle| == |before| + 1;
    assert |after| == |middle| + 1;
  }

  /** The two tables, updated in place by the handler. */
  class Store {
    var broadcasts: map<int, Broadcast>
    var factChecks: seq<FactCheck>
    var nextFactCheckId: int

    function State(): Tables
      reads this
    {
      Tables(broadcasts, factChecks, nextFactCheckId)
    }

    /** The tables' primary-key constraints (see `WellFormed`). */
    ghost predicate Valid()
      reads this
    {
      WellFormed(State())
    }

    /** Tables holding the given broadcasts and no fact checks yet. */
    constructor (rows: map<int, Broadcast>)
      requires forall id :: id in rows ==> rows[id].id == id
      ensures Valid() && State() == Tables(rows, [], 1)
    {
      broadcasts := rows;
      factChecks := [];
      nextFactCheckId := 1;
    }

    /** The `serve` callback: each step either fails, ending the pass with a
        500 response, or leads to the next. */
    method Handle(req: Request, env: Environment) returns (resp: Response)
      requires Valid()
      modifies this
      ensures Valid()
      ensures Outcome(State(), resp) == Run(old(State()), req, env)
    {
      if req.httpMethod == "OPTIONS" {
        return PreflightResponse;
      }
      if req.body.Malformed? {
        return ErrorResponse(req.body.message);
      }
      var broadcastId := req.body.broadcastId;
      if !env.fetchOk || broadcastId.None? || broadcastId.value !in broadcasts {
        return ErrorResponse(FetchFailed);
      }
      var id := broadcastId.value;
      var row := broadcasts[id];
      if !HasKey(env.apiKey) {
        return ErrorResponse(KeyMissing);
      }
      var scored := ScoreOf(env.reply);
      if scored.Err? {
        return ErrorResponse(scored.message);
      }
      var confidence := Confidence(scored.value);
      if !env.updateOk {
        return ErrorResponse(UpdateFailed);
      }
      broadcasts := broadcasts[id := MarkProcessed(row, confidence)];
      if !env.insertOk {
        return ErrorResponse(InsertFailed);
      }
      factChecks := factChecks + [NewFactCheck(nextFactCheckId, id, confidence)];
      nextFactCheckId := nextFactCheckId + 1;
      resp := Response(200, Processed(confidence));
    }
  }
}
