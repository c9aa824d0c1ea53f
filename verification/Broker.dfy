/** The topic and the committed offsets as the clients see them. */
module Broker {
  import opened Engine
  import opened Pipeline

  class Kafka {
    const part: string -> nat
    var log: map<nat, seq<Record>>
    var committed: map<Slot, nat>

    constructor (part: string -> nat)
      ensures this.part == part && log == map[] && committed == map[]
    {
      this.part := part;
      log, committed := map[], map[];
    }

    /** ProduceSync: the record may be appended and still be reported as failed. */
    method ProduceSync(r: Record, fault: Fault) returns (ok: bool)
      modifies this`log
      ensures ok == fault.NoFault?
      ensures log == if fault.ErrLost? then old(log) else Append(old(log), part(r.key), r)
    {
      if !fault.ErrLost? {
        var p := part(r.key);
        log := log[p := Log(log, p) + [r]];
      }
      return fault.NoFault?;
    }

    /** The records of one partition in one fetch. */
    method Fetch(p: nat, start: nat, count: nat) returns (records: seq<Record>)
      requires start + count <= |Log(log, p)|
      ensures records == Log(log, p)[start..start + count]
    {
      return Log(log, p)[start..start + count];
    }

    /** CommitRecords: the group's offset on the partition moves past the last of these records, which lie in
        the log from `start` on. */
    method CommitRecords(slot: Slot, start: nat, records: seq<Record>, fault: Fault) returns (ok: bool)
      requires records != [] && start + |records| <= |Log(log, slot.part)|
      requires records == Log(log, slot.part)[start..start + |records|]
      modifies this`committed
      ensures ok == fault.NoFault?
      ensures committed == if fault.ErrLost? then old(committed) else old(committed)[slot := start + |records|]
    {
      if !fault.ErrLost? {
        committed := committed[slot := start + |records|];
      }
      return fault.NoFault?;
    }
  }
}
