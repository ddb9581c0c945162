/** The in-memory log with a snapshot base (crates/raft/src/log.rs), as a value. */
module RaftLogs {
  import opened Prelude
  import opened RaftTypes

  datatype RaftLog = RaftLog(snapIndex: Index, snapTerm: Term, entries: seq<Entry>) {

    function FirstIndex(): Index { snapIndex + 1 }

    function LastIndex(): Index { snapIndex + |entries| }

    function LastTerm(): Term { if entries == [] then snapTerm else entries[|entries| - 1].term }

    /** Term at `idx`; nothing beyond the log or below the snapshot boundary. */
    function TermOf(idx: Index): Option<Term> {
      if idx == snapIndex then Some(snapTerm)
      else if idx < snapIndex || idx > LastIndex() then None
      else Some(entries[idx - snapIndex - 1].term)
    }

    function Get(idx: Index): Option<Entry> {
      if idx <= snapIndex || idx > LastIndex() then None
      else Some(entries[idx - snapIndex - 1])
    }

    /** At most `limit` entries starting at `from`, clamped to the log. */
    function Slice(from: Index, limit: nat): seq<Entry> {
      var start := Max(from, FirstIndex()) - snapIndex - 1;
      if start >= |entries| then [] else entries[start..Min(start + limit, |entries|)]
    }

    function Push(e: Entry): RaftLog { this.(entries := entries + [e]) }

    function TruncateFrom(idx: Index): RaftLog
      requires idx > snapIndex
    {
      this.(entries := entries[..Min(idx - snapIndex - 1, |entries|)])
    }

    function Compact(idx: Index, term: Term): RaftLog {
      if idx <= snapIndex then this
      else RaftLog(idx, term, entries[Min(idx - snapIndex, |entries|)..])
    }

    function ResetToSnapshot(idx: Index, term: Term): RaftLog { RaftLog(idx, term, []) }
  }
}
