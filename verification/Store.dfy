/** `*store.Postgres`: the three tables and one method per statement or transaction
    (internal/store/postgres.go). */
module Store {
  import opened Engine
  import opened Completions
  import Ledger
  import H = Handler

  /** A transaction's Go result as a reply of the transaction machine. */
  function ReplyOf(r: Result<bool>): Ledger.Reply {
    match r
    case Ok(won) => Ledger.Claimed(won)
    case Err => Ledger.Error
  }

  class Postgres {
    var ledger: map<string, Ledger.LedgerRow>
    var outbox: seq<Ledger.OutboxRow>
    var nextId: nat
    var open: map<nat, Ledger.Tx>
    var completions: Table

    /** The migrated, empty database. */
    constructor ()
      ensures Db() == Ledger.EMPTY_DB && completions == map[]
    {
      ledger, outbox, nextId, open, completions := map[], [], 1, map[], map[];
    }

    ghost function Db(): Ledger.Db
      reads this
    {
      Ledger.Db(ledger, outbox, nextId, open)
    }

    // -------------------------------------------------------------- ledger and outbox transactions

    method BeginTx(x: nat, kind: Ledger.Kind, event: string, eventType: string)
      requires x !in open
      modifies this`open
      ensures Db() == Ledger.Begin(old(Db()), x, kind, event, eventType)
    {
      open := open[x := Ledger.Tx(kind, event, eventType, Ledger.Begun)];
    }

    /** A no-op after a successful commit. */
    method Rollback(x: nat)
      modifies this`open
      ensures Db() == Ledger.Close(old(Db()), x)
    {
      open := open - {x};
    }

    /** What other transactions do in the meantime. */
    method OtherTransactions(x: nat, acts: seq<Ledger.Action>)
      modifies this`ledger, this`outbox, this`nextId, this`open
      ensures Db() == Ledger.OthersDo(old(Db()), x, acts)
    {
      var i := 0;
      while i < |acts|
        invariant i <= |acts|
        invariant Db() == Ledger.OthersDo(old(Db()), x, acts[..i])
      {
        var a := acts[i];
        assert acts[..i + 1][..i] == acts[..i];
        if !Ledger.Mine(a, x) {
          var db := Ledger.Do(Ledger.Db(ledger, outbox, nextId, open), a);
          ledger, outbox, nextId, open := db.ledger, db.outbox, db.nextId, db.open;
        }
        i := i + 1;
      }
      assert acts[..i] == acts;
    }

    /** INSERT INTO processed_events ... ON CONFLICT DO NOTHING: the number of rows, decided once no other
        transaction holds the key. `wait` is what the others do until then; if they still hold the key after
        that, the wait ends in an error. */
    method InsertLedger(x: nat, wait: seq<Ledger.Action>, fails: bool) returns (n: Result<nat>)
      requires x in open && open[x].phase.Begun?
      modifies this`ledger, this`outbox, this`nextId, this`open
      ensures var db := Ledger.OthersDo(old(Db()), x, wait);
              && x in db.open && db.open[x] == old(open)[x]
              && (n.Err? <==> fails || Ledger.Blocked(db, x))
              && (n.Ok? ==> n.value == if db.open[x].event in db.ledger then 0 else 1)
              && Db() == if n == Ok(1) then Ledger.Next(db, x, Ledger.InsertLedger) else db
    {
      Ledger.OthersKeep(Db(), x, wait);
      OtherTransactions(x, wait);
      var event := open[x].event;
      if fails || exists y <- open :: y != x && !open[y].phase.Begun? && open[y].event == event {
        assert !fails ==> exists y <- open :: y != x && Ledger.Holds(Db(), y, event);
        return Err;
      }
      assert forall y <- open :: y != x ==> !Ledger.Holds(Db(), y, event);
      if event in ledger {
        return Ok(0);
      }
      open := open[x := open[x].(phase := Ledger.Holding)];
      return Ok(1);
    }

    /** INSERT INTO outbox_events: draws an id, then meets the UNIQUE and REFERENCES constraints. */
    method InsertOutbox(x: nat, fails: bool) returns (ok: bool)
      requires x in open && open[x].phase.Holding? && open[x].kind.Accept?
      modifies this`open, this`nextId
      ensures fails ==> !ok && open == old(open) && nextId == old(nextId)
      ensures !fails ==> ok == Ledger.OutboxRowFits(old(Db()), x) && nextId == old(nextId) + 1
      ensures open == if ok then old(open)[x := old(open)[x].(phase := Ledger.Written(old(nextId)))] else old(open)
    {
      if fails {
        return false;
      }
      var id := nextId;
      nextId := nextId + 1;
      if open[x].event !in Ledger.Sees(Ledger.Db(ledger, outbox, id, open), x) {
        return false;
      }
      if exists i :: 0 <= i < |outbox| && outbox[i].event == open[x].event {
        return false;
      }
      open := open[x := open[x].(phase := Ledger.Written(id))];
      return true;
    }

    /** UPDATE processed_events SET status = 'processed', on the transaction's own row. */
    method UpdateProcessed(x: nat, fails: bool) returns (ok: bool)
      requires x in open && open[x].phase.Holding? && open[x].kind.Process?
      modifies this`open
      ensures ok == !fails
      ensures open == if ok then old(open)[x := old(open)[x].(phase := Ledger.Written(0))] else old(open)
    {
      if !fails {
        open := open[x := open[x].(phase := Ledger.Written(0))];
      }
      return !fails;
    }

    method Commit(x: nat, fault: Fault) returns (ok: bool)
      requires x in open && open[x].phase.Written?
      modifies this`ledger, this`outbox, this`open
      ensures ok == fault.NoFault?
      ensures Db() == Ledger.Next(old(Db()), x, Ledger.Commit(fault))
    {
      var tx := open[x];
      if !fault.ErrLost? {
        ledger := ledger[tx.event := Ledger.LedgerRow(tx.eventType,
                                                      if tx.kind.Accept? then Ledger.Accepted else Ledger.Processed)];
        if tx.kind.Accept? {
          outbox := outbox + [Ledger.OutboxRow(tx.phase.id, tx.event, tx.eventType, tx.kind.payload, Ledger.Pending)];
        }
      }
      open := open - {x};
      return fault.NoFault?;
    }

    /** The first half both transactions share: insert the ledger row, or be done. Some is the caller's
        result, None means the row is held. */
    method ClaimLedger(x: nat, plan: Ledger.Plan) returns (done: Option<Result<bool>>)
      requires x in open && open[x].phase.Begun?
      modifies this`ledger, this`outbox, this`nextId, this`open
      ensures done.Some? ==> (Db(), ReplyOf(done.value)) == Ledger.RunTx(old(Db()), x, plan)
      ensures done.None? ==> x in open && open[x] == old(open)[x].(phase := Ledger.Holding) &&
                             Ledger.RunTx(old(Db()), x, plan) == Ledger.RunTx(Db(), x, plan)
    {
      var n := InsertLedger(x, plan.beforeInsert, plan.insertFails);
      if n.Err? {
        Rollback(x);
        return Some(Err);
      }
      if n.value == 0 {
        Rollback(x);
        return Some(Ok(false));
      }
      return None;
    }

    /** The last half: commit. */
    method CommitAfter(x: nat, plan: Ledger.Plan) returns (claimed: Result<bool>)
      requires x in open && open[x].phase.Written?
      modifies this`ledger, this`outbox, this`nextId, this`open
      ensures (Db(), ReplyOf(claimed)) == Ledger.RunTx(old(Db()), x, plan)
    {
      Ledger.OthersKeep(Db(), x, plan.beforeCommit);
      OtherTransactions(x, plan.beforeCommit);
      var ok := Commit(x, plan.commit);
      return if ok then Ok(true) else Err;
    }

    /** The rest of `AcceptEvent`, once the ledger row is claimed. */
    method EnqueueThenCommit(x: nat, plan: Ledger.Plan) returns (claimed: Result<bool>)
      requires x in open && open[x].kind.Accept? && open[x].phase.Holding?
      modifies this`ledger, this`outbox, this`nextId, this`open
      ensures (Db(), ReplyOf(claimed)) == Ledger.RunTx(old(Db()), x, plan)
    {
      Ledger.OthersKeep(Db(), x, plan.beforeWrite);
      OtherTransactions(x, plan.beforeWrite);
      ghost var db := Db();
      var ok := InsertOutbox(x, plan.writeFails);
      if !ok {
        Rollback(x);
        return Err;
      }
      assert Db() == Ledger.Next(db, x, Ledger.Write(plan.fnOk));
      claimed := CommitAfter(x, plan);
    }

    /** `AcceptEvent`: ledger row and outbox row in one transaction. */
    method AcceptEvent(x: nat, event: string, eventType: string, payload: Value, plan: Ledger.Plan)
      returns (claimed: Result<bool>)
      requires x !in open
      modifies this`ledger, this`outbox, this`nextId, this`open
      ensures (Db(), ReplyOf(claimed)) ==
              Ledger.RunTx(Ledger.Begin(old(Db()), x, Ledger.Accept(payload), event, eventType), x, plan)
      ensures old(Ledger.Inv(Db())) && claimed == Ok(true) ==>
                var db0 := Ledger.Begin(old(Db()), x, Ledger.Accept(payload), event, eventType);
                var last := Ledger.BeforeLast(db0, x, plan);
                && event in ledger && ledger[event] == Ledger.LedgerRow(eventType, Ledger.Accepted)
                && |outbox| == |last.outbox| + 1
                && var row := outbox[|last.outbox|];
                   outbox == last.outbox + [Ledger.OutboxRow(row.id, event, eventType, payload, Ledger.Pending)]
      ensures old(Ledger.Inv(Db())) && claimed == Ok(true) ==>
                Ledger.NoTrouble(Ledger.Begun, Ledger.Accept(payload), plan)
      ensures old(Ledger.Inv(Db())) && claimed == Ok(false) ==> event in ledger
    {
      ghost var db0 := Ledger.Begin(Db(), x, Ledger.Accept(payload), event, eventType);
      if Ledger.Inv(Db()) {
        Ledger.BeginKeepsInv(Db(), x, Ledger.Accept(payload), event, eventType);
        Ledger.ReplyMeans(db0, x, plan);
      }
      BeginTx(x, Ledger.Accept(payload), event, eventType);
      var done := ClaimLedger(x, plan);
      if done.Some? {
        return done.value;
      }
      claimed := EnqueueThenCommit(x, plan);
    }

    /** The rest of `ProcessEvent`, once the ledger row is claimed. */
    method CallThenCommit(x: nat, plan: Ledger.Plan) returns (claimed: Result<bool>)
      requires x in open && open[x].kind.Process? && open[x].phase.Holding?
      modifies this`ledger, this`outbox, this`nextId, this`open
      ensures (Db(), ReplyOf(claimed)) == Ledger.RunTx(old(Db()), x, plan)
    {
      Ledger.OthersKeep(Db(), x, plan.beforeWrite);
      OtherTransactions(x, plan.beforeWrite);
      ghost var db := Db();
      if !plan.fnOk {
        Rollback(x);
        return Err;
      }
      var ok := UpdateProcessed(x, plan.writeFails);
      if !ok {
        Rollback(x);
        return Err;
      }
      assert Db() == Ledger.Next(db, x, Ledger.Write(true));
      claimed := CommitAfter(x, plan);
    }

    /** `ProcessEvent`: the same claim around a callback whose verdict is `plan.fnOk`. */
    method ProcessEvent(x: nat, event: string, eventType: string, plan: Ledger.Plan) returns (claimed: Result<bool>)
      requires x !in open
      modifies this`ledger, this`outbox, this`nextId, this`open
      ensures (Db(), ReplyOf(claimed)) ==
              Ledger.RunTx(Ledger.Begin(old(Db()), x, Ledger.Process, event, eventType), x, plan)
      ensures old(Ledger.Inv(Db())) && claimed == Ok(true) ==>
                var last := Ledger.BeforeLast(Ledger.Begin(old(Db()), x, Ledger.Process, event, eventType), x, plan);
                && event in ledger && ledger[event] == Ledger.LedgerRow(eventType, Ledger.Processed)
                && outbox == last.outbox
      ensures old(Ledger.Inv(Db())) && claimed == Ok(true) ==> Ledger.NoTrouble(Ledger.Begun, Ledger.Process, plan)
      ensures old(Ledger.Inv(Db())) && claimed == Ok(false) ==> event in ledger
    {
      ghost var db0 := Ledger.Begin(Db(), x, Ledger.Process, event, eventType);
      if Ledger.Inv(Db()) {
        Ledger.BeginKeepsInv(Db(), x, Ledger.Process, event, eventType);
        Ledger.ReplyMeans(db0, x, plan);
      }
      BeginTx(x, Ledger.Process, event, eventType);
      var done := ClaimLedger(x, plan);
      if done.Some? {
        return done.value;
      }
      claimed := CallThenCommit(x, plan);
    }

    method Status(event: string, fault: Fault) returns (r: Result<Option<Ledger.Status>>)
      ensures r.Err? <==> !fault.NoFault?
      ensures r.Ok? ==> r.value == if event in ledger then Some(ledger[event].status) else None
    {
      if !fault.NoFault? {
        return Err;
      }
      if event !in ledger {
        return Ok(None);
      }
      return Ok(Some(ledger[event].status));
    }

    method NextPendingOutbox(fault: Fault) returns (r: Result<Option<(string, Value)>>)
      ensures r.Err? <==> !fault.NoFault?
      ensures r.Ok? ==> (r.value.None? <==> forall i :: 0 <= i < |outbox| ==> !outbox[i].status.Pending?)
      ensures r.Ok? && r.value.Some? ==>
                var i := Ledger.NextPending(outbox).value;
                Ledger.NextPending(outbox).Some? && r.value.value == (outbox[i].event, outbox[i].payload)
    {
      if !fault.NoFault? {
        return Err;
      }
      var next := Ledger.NextPending(outbox);
      if next.None? {
        return Ok(None);
      }
      return Ok(Some((outbox[next.value].event, outbox[next.value].payload)));
    }

    /** True when exactly one row matched; `event_id` is unique, so a match is one row. */
    method MarkOutboxPublished(event: string, fault: Fault) returns (r: Result<bool>)
      modifies this`outbox
      ensures outbox == if fault.ErrLost? then old(outbox) else Ledger.MarkPublished(old(outbox), event)
      ensures r.Err? <==> !fault.NoFault?
      ensures r.Ok? ==> r.value == Ledger.IsPending(old(outbox), event)
    {
      var hit := exists i :: 0 <= i < |outbox| && outbox[i].event == event && outbox[i].status.Pending?;
      if !fault.ErrLost? {
        outbox := Ledger.MarkPublished(outbox, event);
      }
      if !fault.NoFault? {
        return Err;
      }
      return Ok(hit);
    }

    // -------------------------------------------------------------- consumer completions

    /** What other workers' statements do in the meantime. */
    method OtherStatements(qs: seq<Statement>)
      modifies this`completions
      ensures completions == ExecAll(old(completions), qs)
    {
      var i := 0;
      while i < |qs|
        invariant i <= |qs|
        invariant completions == ExecAll(old(completions), qs[..i])
      {
        assert qs[..i + 1][..i] == qs[..i];
        completions := Exec(completions, qs[i]);
        i := i + 1;
      }
      assert qs[..i] == qs;
    }

    /** INSERT ... ON CONFLICT (event_id, consumer_name) DO NOTHING: whether a row was inserted. */
    method InsertCompletion(k: Key, eventType: string, fault: Fault) returns (r: Result<bool>)
      modifies this`completions
      ensures completions == if fault.ErrLost? then old(completions) else Exec(old(completions), Insert(k, eventType))
      ensures r == if fault.NoFault? then Ok(k !in old(completions)) else Err
    {
      var absent := k !in completions;
      if absent && !fault.ErrLost? {
        completions := completions[k := Row(eventType, Processing, None, 1)];
      }
      return if fault.NoFault? then Ok(absent) else Err;
    }

    method SelectCompletion(k: Key, fault: Fault) returns (r: Result<(Status, nat)>)
      ensures r.Ok? <==> fault.NoFault? && k in completions
      ensures r.Ok? ==> r.value == (completions[k].status, completions[k].attempts)
    {
      if !fault.NoFault? || k !in completions {
        return Err;
      }
      return Ok((completions[k].status, completions[k].attempts));
    }

    /** The guarded UPDATE of a processing row; no row to return is an error. */
    method RetryCompletion(k: Key, fault: Fault) returns (r: Result<nat>)
      modifies this`completions
      ensures completions == if fault.ErrLost? then old(completions) else Exec(old(completions), Bump(k))
      ensures r == if fault.NoFault? && Matches(old(completions), Bump(k)) then Ok(completions[k].attempts) else Err
    {
      if k !in completions || !completions[k].status.Processing? {
        return Err;
      }
      if !fault.ErrLost? {
        completions := completions[k := completions[k].(attempts := completions[k].attempts + 1)];
      }
      return if fault.NoFault? then Ok(completions[k].attempts) else Err;
    }

    /** The guarded UPDATE of a failed row. */
    method ReclaimCompletion(k: Key, fault: Fault) returns (r: Result<nat>)
      modifies this`completions
      ensures completions == if fault.ErrLost? then old(completions) else Exec(old(completions), Reclaim(k))
      ensures r == if fault.NoFault? && Matches(old(completions), Reclaim(k)) then Ok(completions[k].attempts) else Err
    {
      if k !in completions || !completions[k].status.Failed? {
        return Err;
      }
      if !fault.ErrLost? {
        var row := completions[k];
        completions := completions[k := row.(status := Processing, attempts := row.attempts + 1, error := None)];
      }
      return if fault.NoFault? then Ok(completions[k].attempts) else Err;
    }

    /** The guarded UPDATE that the selected status calls for. */
    method ReclaimRow(k: Key, eventType: string, status: Status, plan: H.Plan) returns (r: Result<Claim>)
      requires status.Processing? || status.Failed?
      modifies this`completions
      ensures var (t, pc) := H.RunClaim(old(completions), k, eventType,
                                        if status.Processing? then H.Retrying else H.Reclaiming, plan);
              && (pc.Granted? || pc == H.Done(false))
              && completions == t && r == H.ClaimResult(t, k, pc)
    {
      OtherStatements(plan.beforeUpdate);
      if status.Processing? {
        var n := RetryCompletion(k, plan.update);
        return if n.Ok? then Ok(Claim(Retry, n.value)) else Err;
      } else {
        var n := ReclaimCompletion(k, plan.update);
        return if n.Ok? then Ok(Claim(RetryFromFailed, n.value)) else Err;
      }
    }

    /** `ClaimConsumerCompletion`: three statements, not a transaction. It follows the handler machine through
        its claim, which `Handler.ClaimRefines` shows to be one atomic claim. */
    method ClaimConsumerCompletion(k: Key, eventType: string, plan: H.Plan) returns (r: Result<Claim>)
      modifies this`completions
      ensures var (t, pc) := H.RunClaim(old(completions), k, eventType, H.Ready, plan);
              && (pc.Granted? || pc.Done?) && (pc == H.Done(true) ==> k in t)
              && completions == t && r == H.ClaimResult(t, k, pc)
      ensures var seen := ExecAll(old(completions), H.ClaimInterference(old(completions), k, eventType, H.Ready, plan));
              r.Ok? ==> H.ClaimedAs(seen, completions, k, eventType, r.value) && H.NoFaultBefore(plan, r.value)
      ensures plan.insert == plan.select == plan.update == NoFault && plan.AwayFrom({k}) ==> r.Ok?
    {
      ghost var t := completions;
      H.ClaimMeans(t, k, eventType, plan);
      if plan.insert == plan.select == plan.update == NoFault && plan.AwayFrom({k}) {
        H.ClaimSucceeds(t, k, eventType, H.Ready, plan);
      }
      OtherStatements(plan.beforeInsert);
      var inserted := InsertCompletion(k, eventType, plan.insert);
      if inserted.Err? {
        return Err;
      }
      if inserted.value {
        return Ok(Claim(New, 1));
      }
      ghost var t1 := completions;
      assert H.RunClaim(t, k, eventType, H.Ready, plan) == H.RunClaim(t1, k, eventType, H.Selecting, plan);
      OtherStatements(plan.beforeSelect);
      var row := SelectCompletion(k, plan.select);
      if row.Err? {
        return Err;
      }
      if row.value.0.Processed? {
        return Ok(Claim(AlreadyProcessed, row.value.1));
      }
      r := ReclaimRow(k, eventType, row.value.0, plan);
    }

    method MarkConsumerProcessed(k: Key, fault: Fault) returns (r: Result<bool>)
      modifies this`completions
      ensures completions == if fault.ErrLost? then old(completions) else Exec(old(completions), MarkProcessed(k))
      ensures r == if fault.NoFault? then Ok(Matches(old(completions), MarkProcessed(k))) else Err
    {
      var hit := k in completions && completions[k].status.Processing?;
      if hit && !fault.ErrLost? {
        completions := completions[k := completions[k].(status := Processed, error := None)];
      }
      return if fault.NoFault? then Ok(hit) else Err;
    }

    method MarkConsumerFailed(k: Key, msg: string, fault: Fault) returns (r: Result<bool>)
      modifies this`completions
      ensures completions == if fault.ErrLost? then old(completions) else Exec(old(completions), MarkFailed(k, msg))
      ensures r == if fault.NoFault? then Ok(Matches(old(completions), MarkFailed(k, msg))) else Err
    {
      var hit := k in completions && completions[k].status.Processing?;
      if hit && !fault.ErrLost? {
        completions := completions[k := completions[k].(status := Failed, error := Some(msg))];
      }
      return if fault.NoFault? then Ok(hit) else Err;
    }
  }
}
