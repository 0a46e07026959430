/** The part of Go's `http.ResponseWriter` the handlers depend on: the
    status is committed by the first `WriteHeader`, or as 200 by the first
    body write; later `WriteHeader` calls are superfluous and ignored. */
module Response {
  import opened Wrappers

  datatype Writer = Writer(header: Option<nat>, body: string)

  /** A writer nothing has been written to. */
  const Fresh: Writer := Writer(None, "")

  function WriteHeader(w: Writer, code: nat): Writer {
    if w.header.Some? then w else w.(header := Some(code))
  }

  /** `io.WriteString(w, s)`: writing commits the default status first. */
  function WriteString(w: Writer, s: string): Writer {
    Writer(Some(StatusCode(w)), w.body + s)
  }

  /** The status the client receives. */
  function StatusCode(w: Writer): nat {
    if w.header.Some? then w.header.value else 200
  }

  /** Once a status is committed neither `WriteHeader` nor a body write
      changes it; before that, `WriteHeader` decides it and a body write
      makes it 200. */
  lemma FirstStatusWins(w: Writer, code: nat, s: string)
    ensures w.header.Some? ==> StatusCode(WriteHeader(w, code)) == StatusCode(w)
    ensures w.header.None? ==> StatusCode(WriteHeader(w, code)) == code
    ensures StatusCode(WriteString(w, s)) == StatusCode(w)
    ensures WriteHeader(w, code).body == w.body && WriteString(w, s).body == w.body + s
  {
  }
}
