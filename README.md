# process-claim, modelled in Dafny

This project models the `process-claim` edge function of the live fact-checking
platform. Given a broadcast id, the function does these steps in order:

1. It loads the broadcast row.
2. It requires a ClaimBuster API key.
3. It posts the row's content to ClaimBuster and validates the reply.
4. It derives a confidence (`Math.round(score * 100)`) and a status.
5. It writes both back to the broadcast row.
6. It appends one row to `fact_checks`.
7. It answers `{success: true, confidence}`, or a 500 response `{error}` carrying the message of the first check that failed.

The two tables are a class, `ProcessClaim.Store`. It has a `broadcasts` map keyed
by id, a `factChecks` sequence and the fact-check id counter. `Store.Handle`
performs the pass step by step on those fields. It is proved equal to
`ProcessClaim.Run`, a function of the tables before the pass. The properties
are lemmas about `Run`. The request is one input, of type `Request`: its HTTP
method, and its body as `req.json()` reads it. Every other effect outside the
two tables is an input of type `Environment`:

- whether the row query reports an error;
- the API key;
- ClaimBuster's reply: unreachable, or a status, the raw text and the parsed body;
- whether the update succeeds;
- whether the insert succeeds.

Files:

- `records.dfy`: `Option`/`Result`, and the row shapes of `broadcasts` and `fact_checks`.
- `claim_buster.dfy`: the reply shapes, the reply checks in source order, the rounding and the status rule.
- `score_text.dfy`: the explanation text `Claim check score: <n>%`, and a reader that recovers `n` from it.
- `process_claim.dfy`: the request and response, the checks before the writes, `Run`, the lemmas and the `Store` class.

What the handler does, stated plainly:

- It calls one provider, ClaimBuster.
- It writes the status `flagged` when the confidence is above 80 and `pending` otherwise. It never writes `verified` or `debunked`.
- It never range-checks the score, so the confidence need not lie in 0..100.
- It updates the broadcast row before it inserts the fact check, and a failed insert does not undo the update.

## Model

| member | source | states |
|---|---|---|
| ClaimBuster.IsOk | supabase/functions/process-claim/index.ts:59 | `Response.ok` holds exactly for a 2xx status |
| ClaimBuster.ApiError | supabase/functions/process-claim/index.ts:60 | the non-OK message is `ClaimBuster API error: ` followed by the raw reply text |
| ClaimBuster.ScoreOf | supabase/functions/process-claim/index.ts:59-82 | a score is returned iff the response is OK (200-299) and `results` is a non-empty array whose first element has a numeric `score`; otherwise the error is the fetch's own message, `ClaimBuster API error: <text>`, or one of the fixed validation messages |
| ClaimBuster.StatusCheckedBeforeBody | supabase/functions/process-claim/index.ts:59-69 | a non-OK status gives `ClaimBuster API error: <text>` whatever the body is, so the status check wins over every body check |
| ClaimBuster.MalformedBodyMessages | supabase/functions/process-claim/index.ts:63-82 | for an OK response, unparsable JSON, missing/non-array/empty `results` and a non-number score each give their own message |
| ClaimBuster.Confidence | supabase/functions/process-claim/index.ts:85 | the confidence is the integer nearest to `score * 100`, halves rounded up, as `Math.round` does |
| ClaimBuster.ConfidenceMonotonic | supabase/functions/process-claim/index.ts:85 | a higher score never yields a lower confidence |
| ClaimBuster.StatusFor | supabase/functions/process-claim/index.ts:94 | the status is `flagged` iff the confidence is above 80, and `pending` iff it is at most 80 |
| ClaimBuster.StatusThreshold | supabase/functions/process-claim/index.ts:85-94 | score 0.80 gives confidence 80 and stays `pending`; score 0.81 gives 81 and is `flagged` |
| ScoreText.IntText | supabase/functions/process-claim/index.ts:109 | an integer is printed with a leading `-` exactly when it is negative |
| ScoreText.ExplanationFor | supabase/functions/process-claim/index.ts:109 | the explanation starts with `Claim check score: ` and ends with `%`, with the printed confidence between |
| ScoreText.NatText | supabase/functions/process-claim/index.ts:109 | the confidence is printed as at least one decimal digit, with no leading zero; zero is printed as `0` |
| ScoreText.NatTextRoundTrip | supabase/functions/process-claim/index.ts:109 | reading the printed digits back gives the number printed |
| ScoreText.IntTextRoundTrip | supabase/functions/process-claim/index.ts:109 | a printed confidence, negative ones included, reads back as itself |
| ScoreText.ExplanationRoundTrip | supabase/functions/process-claim/index.ts:109 | the explanation `Claim check score: <confidence>%` yields exactly the confidence it was written for |
| ScoreText.ExplanationInjective | supabase/functions/process-claim/index.ts:109 | different confidences give different explanations |
| ProcessClaim.HasKey | supabase/functions/process-claim/index.ts:38-41 | the key counts as missing exactly when it is unset or the empty string, as `!apiKey` treats it |
| ProcessClaim.Prepare | supabase/functions/process-claim/index.ts:20-82 | the checks before any write pass iff the body parses, the row query succeeds and finds the id, the key is non-empty and the reply is usable; the confidence is then the rounded score; an unreadable body and a failed fetch give their own errors |
| ProcessClaim.MarkProcessed | supabase/functions/process-claim/index.ts:89-96 | the updated row has the new confidence, `api_processed = true` and `flagged` iff the confidence is above 80, and every other column is unchanged |
| ProcessClaim.NewFactCheck | supabase/functions/process-claim/index.ts:104-112 | the inserted fact check has the given id and the explanation text for the confidence, names the broadcast, the source `ClaimBuster API` and the method `ai`, and its score and explanation both carry the confidence |
| ProcessClaim.Run | supabase/functions/process-claim/index.ts:9-131 | the answer is 200 iff the request is OPTIONS or every check and both writes succeed; any other answer is 500 with an error message |
| ProcessClaim.FactChecksOf | src/components/fact-checking/api.ts:14-18 | the fact checks selected for a broadcast are exactly the rows of the table that carry that broadcast id, each as many times as the table holds it and no other row |
| ProcessClaim.FactChecksOfAppend | src/components/fact-checking/api.ts:14-18 | appending a fact check extends the list of its own broadcast by that row and leaves every other broadcast's list unchanged |
| ProcessClaim.PreflightIsInert | supabase/functions/process-claim/index.ts:10-12 | an OPTIONS request gets an empty 200 answer and leaves both tables unchanged |
| ProcessClaim.FetchFailureWins | supabase/functions/process-claim/index.ts:24-41 | a failed or empty fetch gives `Failed to fetch broadcast` and no write, whatever the key, reply and write outcomes are, so it wins over a missing key |
| ProcessClaim.CheckFailuresWriteNothing | supabase/functions/process-claim/index.ts:38-82 | with the row found, a missing key gives `CLAIMBUSTER_API_KEY is not set`, and an unusable reply gives the reply check's error; neither writes anything |
| ProcessClaim.MalformedBodyWritesNothing | supabase/functions/process-claim/index.ts:20 | a request body `req.json()` rejects gives a 500 answer with the runtime's message and leaves both tables unchanged |
| ProcessClaim.UpdateFailureInsertsNothing | supabase/functions/process-claim/index.ts:89-101 | a failed update gives `Failed to update broadcast`, leaves the tables unchanged and inserts no fact check |
| ProcessClaim.InsertFailureKeepsUpdate | supabase/functions/process-claim/index.ts:89-117 | a failed insert leaves the broadcast update in place and no new fact check, and the answer is `Failed to create fact check` |
| ProcessClaim.SuccessfulPass | supabase/functions/process-claim/index.ts:85-122 | on success only the target row is updated, exactly one fact check is appended after the untouched earlier ones, and the response carries the confidence written to both |
| ProcessClaim.SuccessAddsOneFactCheckPerTarget | supabase/functions/process-claim/index.ts:104-112 | on success the target broadcast's fact-check list grows by the new row, and every other broadcast's list is unchanged |
| ProcessClaim.SuccessKeepsKeysUnique | supabase/functions/process-claim/index.ts:89-112 | on tables with unique keys, the updated row keeps its id and the inserted fact check gets an id above every earlier one |
| ProcessClaim.RunKeepsWellFormed | supabase/functions/process-claim/index.ts:89-117 | every pass keeps each broadcast under its own id and keeps fact-check ids increasing and below the counter |
| ProcessClaim.RerunDuplicatesFactCheck | supabase/functions/process-claim/index.ts:89-117 | a second successful pass with the same inputs leaves the broadcasts as the first pass did, but adds a second fact check for the same broadcast |
| ProcessClaim.Store.Handle | supabase/functions/process-claim/index.ts:9-131 | performed step by step on the tables, the handler leaves the tables and gives the response that `Run` prescribes, and it keeps them well formed |

## Left out

- The Supabase client, `Deno.env`, `fetch`, `req.json()` and `JSON.parse` are not modelled. Their outcomes are inputs: the request body, `Environment` and the parsed `ReplyBody`. The parsed body is not tied to the raw reply text.
- ClaimBuster's reply is an input. The model does not relate it to the broadcast's `content` that the source posts.
- CORS headers and the `Content-Type` header of responses are not modelled. Logging (`console.log`/`console.error`) is not modelled either.
- Floating point is not modelled. The score is a `real`, and `Math.round(score * 100)` is exact rounding of the real product. NaN, infinities and the exponent notation JavaScript uses to print integers of 10^21 and above are not modelled.
- The TypeError messages for a `null` body and `null` first results are taken as the V8 runtime's wording. They depend on the runtime.
- The `created_at`/`updated_at` columns of `fact_checks` are filled by the database and are not modelled. Fact-check ids are modelled as a serial counter. The counter advances only on a successful insert, whereas a database sequence also advances on a failed one; only the id values differ.
- A database trigger that might change `updated_at` on update is not modelled. The update changes exactly the three columns it names.
- The Supabase client is assumed to be created. An error from `createClient` (for example an unset `SUPABASE_URL`) would also end in a 500 answer; that path is not modelled.
- Concurrency is not modelled. Each pass runs alone. Simultaneous passes for the same id are not guarded in the source. `RerunDuplicatesFactCheck` covers sequential repeats only.
- The display layer is not modelled: the feed's realtime subscription, the broadcast list query and the `status || "pending"` default, rendering, the confidence badge colours and the status icons. It is UI wiring with no effect on the tables the handler writes.
