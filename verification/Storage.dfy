// What uploads and downloads share about object storage (internal/artifacts/artifacts.go).
module Storage {
  type Byte = b: int | 0 <= b < 256

  // Attempts in a row that may move nothing forward (internal/base/wait/reconnect.go).
  const RECONNECT_BUDGET := 5

  // A failed exchange, as far as resuming tells errors apart.
  datatype Fault = Connection | Timeout | Api(status: int) | Other

  // Statuses that a later attempt may not meet again. A 412 is not among them: once the pinned
  // generation is replaced every attempt gets it.
  predicate RetryableStatus(status: int) {
    status == 408 || status == 429 || (status >= 500 && status != 501)
  }

  // Faults after which a transfer goes on, provided the caller still wants it.
  predicate Resumable(f: Fault, ctxEnded: bool) {
    !ctxEnded && (f.Connection? || f.Timeout? || (f.Api? && RetryableStatus(f.status)))
  }

  // No fault is resumed once the caller is gone; a client error is, only for asking too slowly or too
  // often; a server error is, unless the server cannot do what was asked.
  lemma WorthResuming(f: Fault, ctxEnded: bool)
    ensures Resumable(f, ctxEnded) ==> !ctxEnded && f != Other
    ensures f.Api? && f.status < 500 && Resumable(f, ctxEnded) ==> f.status in {408, 429}
    ensures f.Api? && f.status >= 500 && !ctxEnded ==> (Resumable(f, ctxEnded) <==> f.status != 501)
    ensures !ctxEnded && (f in {Connection, Timeout, Api(408), Api(429)}) ==> Resumable(f, ctxEnded)
  {
  }
}
