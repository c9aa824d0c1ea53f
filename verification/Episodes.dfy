/** Short runs in which one process does one thing: a worker polls one record, a webhook call is accepted, a
    publisher publishes one row. */
module Episodes {
  import opened Engine
  import opened Completions
  import opened Pipeline
  import opened Runs
  import WorkerRefinement
  import Ledger
  import Worker
  import H = Handler

  // ---------------------------------------------------------------- one record, nobody else moving

  /** Everything that handling records leaves alone. */
  ghost predicate Kept(s: State, s': State) {
    && s'.part == s.part && s'.db == s.db && s'.checking == s.checking && s'.log == s.log
    && s'.publishers == s.publishers && s'.hist.answered == s.hist.answered && s'.hist.appended == s.hist.appended
  }

  /** Another row and its rejection are as they were. */
  ghost predicate RowKept(s: State, s': State, k: Key) {
    && (k in s'.table <==> k in s.table) && (k in s.table ==> s'.table[k] == s.table[k])
    && (k in s'.hist.rejected <==> k in s.hist.rejected)
  }

  lemma HandleKeeps(s: State, w: nat, c: H.Choice)
    requires WorkerRefinement.InCall(s, w) && H.Enabled(s.workers[w].pc, c)
    ensures var s' := Do(s, Handle(w, c));
            && Kept(s, s') && s'.committed == s.committed
            && w in s'.workers && s'.workers == s.workers[w := s'.workers[w]]
            && (forall k :: k != KeyOf(s.workers[w]) ==> RowKept(s, s', k))
            && (NextPc(s.table, s.workers[w], c) != H.Done(true) ==> s'.hist.rejected == s.hist.rejected)
  {
  }

  lemma {:induction false} CallKeeps(r: Rules, s: State, w: nat, acts: seq<Action>, plan: H.Plan, s': State)
    requires WorkerRefinement.CallFollows(r, s, w, acts, plan, s') && WorkerRefinement.AsPlanned(w, plan, acts)
    ensures Kept(s, s') && s'.committed == s.committed
    ensures w in s'.workers && s'.workers == s.workers[w := s'.workers[w]]
    ensures forall k :: k != KeyOf(s.workers[w]) ==> RowKept(s, s', k)
    ensures s'.workers[w].pos == s.workers[w].pos ==> s'.hist.rejected == s.hist.rejected
    decreases |acts|
  {
    var a := acts[0];
    var s1 := Do(s, a);
    WorkerRefinement.OwnStep(r, s, w, a.choice);
    HandleKeeps(s, w, a.choice);
    if !NextPc(s.table, s.workers[w], a.choice).Done? {
      WorkerRefinement.CallMoves(s, w, a.choice);
      CallKeeps(r, s1, w, acts[1..], plan, s');
      forall k | k != KeyOf(s.workers[w])
        ensures RowKept(s, s', k)
      {
        assert RowKept(s, s1, k) && RowKept(s1, s', k);
      }
    }
  }

  /** The worker fetches the record at `o`, handles it under the plan, and commits if that returned true. */
  ghost predicate OnePoll(r: Rules, s: State, w: nat, slot: Slot, o: nat, plan: H.Plan, acts: seq<Action>, s': State)
    requires o < |Log(s.log, slot.part)| && Handleable(Log(s.log, slot.part)[o].value)
  {
    var rec := Log(s.log, slot.part)[o];
    var k := KeyFor(rec, slot.consumer);
    var (table, ok, _) := H.RunHandler(s.table, k, rec.value.job.eventType, H.Ready, plan);
    && Leads(r, s, acts, s') && Kept(s, s') && s'.workers == s.workers
    && s'.table == table && s'.committed == (if ok then s.committed[slot := o + 1] else s.committed)
    && (forall k' :: k' != k ==> RowKept(s, s', k'))
    && (!ok ==> s'.hist.rejected == s.hist.rejected)
    && (exists body :: WorkerRefinement.AsPlanned(w, plan, body) &&
          acts == WorkerRefinement.PollActs(w, slot.consumer, slot.part, o, Worker.PollPlan(1, [plan], NoFault), body))
  }

  lemma FetchOne(r: Rules, s: State, w: nat, slot: Slot, o: nat)
    requires w !in s.workers && o < |Log(s.log, slot.part)| && Handleable(Log(s.log, slot.part)[o].value)
    requires Allowed(r, s, Poll(w, slot.consumer, slot.part, o, 1))
    ensures var s1, rec := Do(s, Poll(w, slot.consumer, slot.part, o, 1)), Log(s.log, slot.part)[o];
            && Kept(s, s1) && s1.committed == s.committed && s1.table == s.table && s1.hist.rejected == s.hist.rejected
            && s1.workers == s.workers[w := Pipeline.Worker(slot.consumer, slot.part, o, [rec], 0, H.Ready)]
            && WorkerRefinement.InCall(s1, w)
  {
    assert Log(s.log, slot.part)[o..o + 1] == [Log(s.log, slot.part)[o]];
  }

  lemma CommitOne(r: Rules, s: State, w: nat, slot: Slot, o: nat, pos: nat)
    requires w in s.workers && s.workers[w].pc.Done? && pos <= 1
    requires s.workers[w].consumer == slot.consumer && s.workers[w].part == slot.part
    requires s.workers[w].start == o && s.workers[w].pos == pos
    ensures var a := CommitOffset(w, NoFault);
            && Allowed(r, s, a)
            && var s' := Do(s, a);
               && Kept(s, s') && s'.table == s.table && s'.hist.rejected == s.hist.rejected
               && s'.workers == s.workers - {w}
               && s'.committed == if pos == 1 then s.committed[slot := o + 1] else s.committed
  {
  }

  lemma OnePollHolds(r: Rules, s: State, w: nat, slot: Slot, o: nat, plan: H.Plan, body: seq<Action>, s1: State,
                     s2: State)
    requires w !in s.workers && o < |Log(s.log, slot.part)| && Handleable(Log(s.log, slot.part)[o].value)
    requires Kept(s, s1) && s1.committed == s.committed && s1.table == s.table && s1.hist.rejected == s.hist.rejected
    requires var rec := Log(s.log, slot.part)[o];
             s1.workers == s.workers[w := Pipeline.Worker(slot.consumer, slot.part, o, [rec], 0, H.Ready)]
    requires WorkerRefinement.AsPlanned(w, plan, body) && WorkerRefinement.CallIs(s1, w, body, plan, s2)
    requires Kept(s1, s2) && s2.committed == s1.committed && s2.workers == s1.workers[w := s2.workers[w]]
    requires forall k :: k != KeyOf(s1.workers[w]) ==> RowKept(s1, s2, k)
    requires s2.workers[w].pos == s1.workers[w].pos ==> s2.hist.rejected == s1.hist.rejected
    requires s2.workers[w].pc.Done? && Allowed(r, s2, CommitOffset(w, NoFault))
    requires Leads(r, s,
                   WorkerRefinement.PollActs(w, slot.consumer, slot.part, o, Worker.PollPlan(1, [plan], NoFault), body),
                   Do(s2, CommitOffset(w, NoFault)))
    ensures exists acts, s' :: OnePoll(r, s, w, slot, o, plan, acts, s')
  {
    var acts := WorkerRefinement.PollActs(w, slot.consumer, slot.part, o, Worker.PollPlan(1, [plan], NoFault), body);
    var s' := Do(s2, CommitOffset(w, NoFault));
    CommitOne(r, s2, w, slot, o, s2.workers[w].pos);
    assert s'.workers == s.workers;
    forall k | k != KeyFor(Log(s.log, slot.part)[o], slot.consumer)
      ensures RowKept(s, s', k)
    {
      assert RowKept(s1, s2, k);
    }
    assert OnePoll(r, s, w, slot, o, plan, acts, s');
  }

  /** With nobody in between, a poll of one record does what the handler does under the plan. */
  lemma OnePollRuns(r: Rules, s: State, w: nat, slot: Slot, o: nat, plan: H.Plan)
    requires w !in s.workers && o < |Log(s.log, slot.part)| && Handleable(Log(s.log, slot.part)[o].value)
    requires Allowed(r, s, Poll(w, slot.consumer, slot.part, o, 1)) && plan.Alone()
    ensures exists acts, s' :: OnePoll(r, s, w, slot, o, plan, acts, s')
  {
    var a, c := Poll(w, slot.consumer, slot.part, o, 1), CommitOffset(w, NoFault);
    var poll := Worker.PollPlan(1, [plan], NoFault);
    FetchOne(r, s, w, slot, o);
    var s1 := Do(s, a);
    WorkerRefinement.AloneCallIsRun(r, s1, w, plan);
    var body, s2 :| WorkerRefinement.AsPlanned(w, plan, body) &&
                    WorkerRefinement.CallFollows(r, s1, w, body, plan, s2) &&
                    WorkerRefinement.CallIs(s1, w, body, plan, s2);
    WorkerRefinement.CallRefines(r, s1, w, body, plan, s2);
    CallKeeps(r, s1, w, body, plan, s2);
    CommitOne(r, s2, w, slot, o, s2.workers[w].pos);
    WorkerRefinement.PollLeads(r, s, w, slot.consumer, slot.part, o, poll, body, s2);
    OnePollHolds(r, s, w, slot, o, plan, body, s1, s2);
  }

  /** An untroubled call always marks the row. */
  lemma CleanCallSucceeds(t: Table, k: Key, ty: string)
    ensures Worker.CLEAN_PLAN.Clean({k}) && H.RunHandler(t, k, ty, H.Ready, Worker.CLEAN_PLAN).1
  {
    H.CleanHandled(t, k, ty, H.Ready, Worker.CLEAN_PLAN);
  }

  // ---------------------------------------------------------------- one webhook call, one publication

  lemma ReceiveLeads(r: Rules, s: State, h: nat, job: Job)
    requires h !in s.db.open && h !in s.checking
    ensures Leads(r, s, [Receive(h, job)],
                  s.(db := Ledger.Begin(s.db, h, Ledger.Accept(Encoded(job)), job.stripeEventId, job.eventType)))
  {
    LeadsOne(r, s, Receive(h, job));
  }

  lemma MoveLeads(r: Rules, s: State, h: nat, m: Ledger.Move)
    requires Ledger.Enabled(s.db, h, m) && !m.Commit? && Ledger.Answer(s.db, h, m) == Ledger.Continue
    ensures Leads(r, s, [Transact(h, m)], s.(db := Ledger.Next(s.db, h, m)))
  {
    LeadsOne(r, s, Transact(h, m));
  }

  /** The state once the accept in `h` has committed and answered. */
  function Committing(s: State, h: nat): State
    requires h in s.db.open && s.db.open[h].phase.Written?
  {
    s.(db := Ledger.Install(s.db, h), hist := s.hist.(answered := s.hist.answered + {s.db.open[h].event}))
  }

  lemma CommitLeads(r: Rules, s: State, h: nat)
    requires h in s.db.open && s.db.open[h].phase.Written?
    requires r.inOrder ==> CommitsInOrder(s, Transact(h, Ledger.Commit(NoFault)))
    ensures Leads(r, s, [Transact(h, Ledger.Commit(NoFault))], Committing(s, h))
  {
    LeadsOne(r, s, Transact(h, Ledger.Commit(NoFault)));
  }

  lemma SelectLeads(r: Rules, s: State, q: nat, i: nat)
    requires s.publishers == map[] && Ledger.NextPending(s.db.outbox) == Some(i)
    ensures var row := s.db.outbox[i];
            Leads(r, s, [SelectPending(q)], s.(publishers := map[q := Selected(row.event, row.payload)]))
  {
    LeadsOne(r, s, SelectPending(q));
  }

  function AfterProduce(s: State, q: nat, event: string, payload: Value, acked: bool): State {
    s.(log := Append(s.log, s.part(event), Record(event, payload)),
       publishers := if acked then map[q := Pipeline.Produced(event)] else map[],
       hist := s.hist.(appended := s.hist.appended + [event]))
  }

  lemma ProduceLeads(r: Rules, s: State, q: nat, event: string, payload: Value, acked: bool)
    requires s.publishers == map[q := Selected(event, payload)]
    ensures Leads(r, s, [Produce(q, true, acked)], AfterProduce(s, q, event, payload, acked))
  {
    LeadsOne(r, s, Produce(q, true, acked));
  }

  lemma MarkLeads(r: Rules, s: State, q: nat, event: string)
    requires s.publishers == map[q := Pipeline.Produced(event)]
    ensures Leads(r, s, [MarkPublished(q, NoFault)],
                  s.(db := s.db.(outbox := Ledger.MarkPublished(s.db.outbox, event)), publishers := map[]))
  {
    LeadsOne(r, s, MarkPublished(q, NoFault));
  }

  /** An accept up to its commit. */
  function WriteActs(h: nat, job: Job): seq<Action> {
    [Receive(h, job)] + ([Transact(h, Ledger.InsertLedger)] + [Transact(h, Ledger.Write(true))])
  }

  function AcceptActs(h: nat, job: Job): seq<Action> {
    WriteActs(h, job) + [Transact(h, Ledger.Commit(NoFault))]
  }

  function NewRow(id: nat, job: Job): Ledger.OutboxRow {
    Ledger.OutboxRow(id, job.stripeEventId, job.eventType, Encoded(job), Ledger.Pending)
  }

  /** The state after one more event has been accepted. */
  function Accepted(s: State, job: Job): State {
    var e := job.stripeEventId;
    s.(db := s.db.(ledger := s.db.ledger[e := Ledger.LedgerRow(job.eventType, Ledger.Accepted)],
                   outbox := s.db.outbox + [NewRow(s.db.nextId, job)],
                   nextId := s.db.nextId + 1),
       hist := s.hist.(answered := s.hist.answered + {e}))
  }

  /** The state in which the transaction has written both its rows. */
  function Writing(s: State, h: nat, job: Job, phase: Ledger.Phase): State {
    var tx := Ledger.Tx(Ledger.Accept(Encoded(job)), job.stripeEventId, job.eventType, phase);
    s.(db := s.db.(open := s.db.open[h := tx], nextId := if phase.Written? then s.db.nextId + 1 else s.db.nextId))
  }

  /** The event is new: no row, and nobody else at it. */
  ghost predicate Fresh(s: State, h: nat, e: string) {
    && h !in s.db.open && h !in s.checking && e !in s.db.ledger
    && !Ledger.InOutbox(s.db.outbox, e) && !Ledger.Locked(s.db, e)
  }

  lemma WriteLeads(r: Rules, s: State, h: nat, job: Job)
    requires Fresh(s, h, job.stripeEventId)
    ensures Leads(r, s, WriteActs(h, job), Writing(s, h, job, Ledger.Written(s.db.nextId)))
  {
    var s1, s2 := Writing(s, h, job, Ledger.Begun), Writing(s, h, job, Ledger.Holding);
    ReceiveLeads(r, s, h, job);
    Ledger.BeginUnblocked(s.db, h, Ledger.Accept(Encoded(job)), job.stripeEventId, job.eventType);
    MoveLeads(r, s1, h, Ledger.InsertLedger);
    assert s1.db.open[h := s2.db.open[h]] == s2.db.open;
    MoveLeads(r, s2, h, Ledger.Write(true));
    assert s2.db.open[h := Writing(s, h, job, Ledger.Written(s.db.nextId)).db.open[h]] ==
           Writing(s, h, job, Ledger.Written(s.db.nextId)).db.open;
    LeadsConcat(r, s1, [Transact(h, Ledger.InsertLedger)], s2, [Transact(h, Ledger.Write(true))],
                Writing(s, h, job, Ledger.Written(s.db.nextId)));
    LeadsConcat(r, s, [Receive(h, job)], s1, [Transact(h, Ledger.InsertLedger)] + [Transact(h, Ledger.Write(true))],
                Writing(s, h, job, Ledger.Written(s.db.nextId)));
  }

  lemma AcceptLeads(r: Rules, s: State, h: nat, job: Job)
    requires Fresh(s, h, job.stripeEventId)
    requires forall i :: 0 <= i < |s.db.outbox| ==> s.db.outbox[i].id < s.db.nextId
    ensures Leads(r, s, AcceptActs(h, job), Accepted(s, job))
  {
    var s3 := Writing(s, h, job, Ledger.Written(s.db.nextId));
    WriteLeads(r, s, h, job);
    CommitLeads(r, s3, h);
    assert s3.db.open - {h} == s.db.open;
    assert Committing(s3, h) == Accepted(s, job);
    LeadsConcat(r, s, WriteActs(h, job), s3, [Transact(h, Ledger.Commit(NoFault))], Accepted(s, job));
  }

  function PublishActs(q: nat): seq<Action> {
    [SelectPending(q)] + ([Produce(q, true, true)] + [MarkPublished(q, NoFault)])
  }

  /** The state after the publisher has published row `i`. */
  function Published(s: State, i: nat): State
    requires i < |s.db.outbox|
  {
    var row := s.db.outbox[i];
    s.(db := s.db.(outbox := Ledger.MarkPublished(s.db.outbox, row.event)),
       log := Append(s.log, s.part(row.event), Record(row.event, row.payload)),
       hist := s.hist.(appended := s.hist.appended + [row.event]))
  }

  lemma PublishLeads(r: Rules, s: State, q: nat, i: nat)
    requires s.publishers == map[] && Ledger.NextPending(s.db.outbox) == Some(i)
    ensures Leads(r, s, PublishActs(q), Published(s, i))
  {
    var row := s.db.outbox[i];
    var s1 := s.(publishers := map[q := Selected(row.event, row.payload)]);
    var s2 := AfterProduce(s1, q, row.event, row.payload, true);
    SelectLeads(r, s, q, i);
    ProduceLeads(r, s1, q, row.event, row.payload, true);
    MarkLeads(r, s2, q, row.event);
    LeadsConcat(r, s1, [Produce(q, true, true)], s2, [MarkPublished(q, NoFault)], Published(s, i));
    LeadsConcat(r, s, [SelectPending(q)], s1, [Produce(q, true, true)] + [MarkPublished(q, NoFault)], Published(s, i));
  }
}
