/** Optional values and results with an error message, as the handler's
    `throw new Error(message)` / `catch` pairs use them. */
module Wrappers {

  datatype Option<+T> = None | Some(value: T)

  /** `Err(message)` stands for an `Error` thrown with that message. */
  datatype Result<+T> = Ok(value: T) | Err(message: string)
}

/** Row shapes of the two tables the handler touches
    (src/components/fact-checking/types.ts). */
module Records {
  import opened Wrappers

  /** The four values the `status` column may hold. */
  datatype Status = Verified | Debunked | Flagged | Pending

  /** A row of the `broadcasts` table (`FactCheckItem`). Nullable and optional
      columns are `Option`s. */
  datatype Broadcast = Broadcast(
    id: int,
    content: string,
    confidence: Option<int>,
    status: Status,
    timestamp: Option<string>,
    source: string,
    speaker: Option<string>,
    apiProcessed: Option<bool>,
    createdAt: Option<string>,
    updatedAt: Option<string>,
    videoUrl: Option<string>,
    transcriptStatus: Option<string>,
    videoTitle: Option<string>)

  /** A row of the `fact_checks` table (`FactCheck`), with the
      `verification_method` column the handler also writes. The timestamp
      columns, which the database fills in, are not modelled. */
  datatype FactCheck = FactCheck(
    id: int,
    broadcastId: Option<int>,
    verificationSource: string,
    explanation: string,
    confidenceScore: Option<int>,
    verificationMethod: string)
}
