/** The exceptions the workers distinguish, and how they classify them. */
module Failures {
  import opened Wrappers

  /** What made the parser give up. */
  datatype Cause = NoCause | ConnectionCause | TimeoutCause | OtherCause

  /** The driver exception behind a database error. */
  datatype Origin = DriverOperational | DriverInterface | ConnectionOrigin | TimeoutOrigin | OtherOrigin

  datatype Failure =
    | NoExtractableText
    | ParseFailure(cause: Cause)
    | PoolTimeout
    | DatabaseFailure(invalidated: bool, sqlstate: Option<string>, origin: Origin, name: string)
    | LlmTimeout
    | LlmRateLimit
    | OtherFailure(name: string)

  const MAX_HANDLER_ATTEMPTS: nat := 3

  const RETRYABLE_SQLSTATES: set<string> := {"53300", "57P01", "57P02", "57P03"}

  /** SQLSTATE class 08, too many connections, or a server that is shutting down, crashed or starting. */
  predicate LostState(state: string) {
    || (|state| >= 2 && state[0] == '0' && state[1] == '8')
    || state == "53300" || state == "57P01" || state == "57P02" || state == "57P03"
  }

  /** Trouble with a connection, kind by kind: of the parser, of the pool, or of the database. */
  predicate ConnectionTrouble(f: Failure) {
    || f == ParseFailure(ConnectionCause) || f == ParseFailure(TimeoutCause) || f == PoolTimeout
    || (f.DatabaseFailure? && f.invalidated)
    || (f.DatabaseFailure? && f.sqlstate.Some? && LostState(f.sqlstate.value))
    || (f.DatabaseFailure? && f.sqlstate.None?
        && f.origin in {DriverOperational, DriverInterface, ConnectionOrigin, TimeoutOrigin})
  }

  /** Trouble with a connection, or a language model that is slow or busy. */
  predicate TransientTrouble(f: Failure) {
    ConnectionTrouble(f) || f == LlmTimeout || f == LlmRateLimit
  }

  /** Retried is exactly trouble with a connection. */
  predicate IsRetryable(f: Failure): (r: bool)
    ensures r <==> ConnectionTrouble(f)
  {
    match f
    case ParseFailure(cause) => cause.ConnectionCause? || cause.TimeoutCause?
    case PoolTimeout => true
    case DatabaseFailure(invalidated, sqlstate, origin, _) =>
      if invalidated then true
      else if sqlstate.Some? then "08" <= sqlstate.value || sqlstate.value in RETRYABLE_SQLSTATES
      else !origin.OtherOrigin?
    case _ => false
  }

  /** The ticket worker also retries two failures of the language model. */
  predicate IsRetryableForTickets(f: Failure): (r: bool)
    ensures r <==> TransientTrouble(f)
  {
    IsRetryable(f) || f.LlmTimeout? || f.LlmRateLimit?
  }

  function TypeName(f: Failure): string {
    match f
    case NoExtractableText => "NoExtractableTextError"
    case ParseFailure(_) => "DocumentParseError"
    case PoolTimeout => "TimeoutError"
    case DatabaseFailure(_, _, _, name) => name
    case LlmTimeout => "LLMTimeoutError"
    case LlmRateLimit => "LLMRateLimitError"
    case OtherFailure(name) => name
  }

  function Truncate(s: string, n: nat): (r: string)
    ensures r <= s && |r| == (if |s| <= n then |s| else n)
  {
    if |s| <= n then s else s[..n]
  }

  /** The short reason stored with a failed document. */
  function FailureReason(f: Failure): (reason: string)
    ensures 0 < |reason| <= 255
  {
    if f.NoExtractableText? then "Document has no extractable text"
    else if IsRetryable(f) then "Temporary infrastructure failure after 3 attempts"
    else if f.ParseFailure? then "PDF could not be parsed"
    else Truncate("Document ingestion failed (" + TypeName(f) + ")", 255)
  }

  /** The reason stored for each kind of failure. */
  lemma ReasonTexts(f: Failure)
    ensures f == NoExtractableText ==> FailureReason(f) == "Document has no extractable text"
    ensures ConnectionTrouble(f) ==> FailureReason(f) == "Temporary infrastructure failure after 3 attempts"
    ensures f == ParseFailure(NoCause) || f == ParseFailure(OtherCause) ==>
              FailureReason(f) == "PDF could not be parsed"
    ensures (f.DatabaseFailure? && !ConnectionTrouble(f)) || f.OtherFailure? ==>
              FailureReason(f) == Truncate("Document ingestion failed (" + f.name + ")", 255)
  {
    hide IsRetryable;
    hide LostState;
  }

  /** A unique-constraint violation on a healthy connection ends the job: it is never retried. */
  lemma UniqueViolationIsTerminal(origin: Origin, name: string)
    ensures !IsRetryable(DatabaseFailure(false, Some("23505"), origin, name))
  {
    assert "23505"[0] == '2';
    assert "23505"[4] == '5' && "53300"[4] == '0';
    assert "57P01"[2] == "57P02"[2] == "57P03"[2] == 'P' && "23505"[2] == '5';
  }
}
