/**
 * The engines' event log, a `deque(maxlen=50)`: appending to a full log drops the
 * oldest entry. Entries are opaque to the model.
 */
module EventLog {

  const Capacity: nat := 50

  /** One log entry, stamped with the tick at which it was written. */
  datatype LogEntry = LogEntry(tick: int)

  /** Appends `e`, keeping only the newest `Capacity` entries. */
  function Append(log: seq<LogEntry>, e: LogEntry): (r: seq<LogEntry>)
    ensures |r| == if |log| < Capacity then |log| + 1 else Capacity
    ensures r[|r| - 1] == e
    ensures r[..|r| - 1] == log[|log| - (|r| - 1)..]
  {
    var full := log + [e];
    if |full| <= Capacity then full else full[|full| - Capacity..]
  }

  /** A log that respects the bound keeps respecting it. */
  lemma AppendBounded(log: seq<LogEntry>, e: LogEntry)
    requires |log| <= Capacity
    ensures |Append(log, e)| <= Capacity
    ensures |log| < Capacity ==> Append(log, e) == log + [e]
  {
  }
}
