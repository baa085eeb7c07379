/** What the runs of the queues write: a trace, with the ledger read off it. */
module Journals {
  datatype Journal<E, B> = Journal(trace: seq<E>, b: B)

  /** A mark to mention where it is needed that the trace of a kept journal conforms to its
      protocol; elsewhere the verifier carries the journal along without looking into it. */
  ghost predicate Opened<E, B>(log: Journal<E, B>) {
    true
  }

  lemma Appended<E>(trace: seq<E>, e: E)
    ensures (trace + [e])[..|trace|] == trace && (trace + [e])[|trace|] == e
  {
  }
}
