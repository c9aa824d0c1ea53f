/** Runs that show what the rules are for: what the poll loop loses when a batch starts past a failed record,
    two workers on one event, and copies of an event apart from each other in the topic. */
module Counterexamples {
  import opened Engine
  import opened Completions
  import opened Pipeline
  import opened Runs
  import opened Sessions
  import opened Episodes
  import opened Theorems
  import WorkerRefinement
  import Publishing
  import Ledger
  import Worker
  import H = Handler
  import Downstream

  // ---------------------------------------------------------------- a batch that starts past an unacked record

  ghost predicate Unacked(s: State, k: Key) {
    !IsProcessed(s.table, k) && k !in s.hist.rejected
  }

  ghost predicate CommittedOverUnacked(s: State, slot: Slot) {
    Committed(s.committed, slot) > Frontier(AcksOf(s), slot.consumer, Log(s.log, slot.part))
  }

  /** The event was answered 204, and nothing in the system will bring it to the consumer any more. */
  ghost predicate Lost(s: State, event: string, consumer: string) {
    && event in s.hist.answered
    && !Ledger.IsPending(s.db.outbox, event) && !AwaitsConsumer(s, event, consumer)
    && Unacked(s, Key(event, consumer))
  }

  /** Without the rule on batch starts, the poll loop breaks the guarantee from every state in which some
      record is unacked: one batch that starts past it, on a record of another event, commits over it and
      leaves it unacked, with everything the webhook handlers and the publishers have done as it was. */
  lemma StartPastUnackedCommitsOverIt(r: Rules, s: State, w: nat, slot: Slot, skipped: nat, o: nat)
    requires w !in s.workers && skipped < o < |Log(s.log, slot.part)|
    requires Allowed(r, s, Poll(w, slot.consumer, slot.part, o, 1))
    requires var records := Log(s.log, slot.part);
             && Unacked(s, KeyFor(records[skipped], slot.consumer))
             && Handleable(records[o].value)
             && KeyFor(records[o], slot.consumer) != KeyFor(records[skipped], slot.consumer)
    ensures exists acts, s' ::
              && OnePoll(r, s, w, slot, o, Worker.CLEAN_PLAN, acts, s')
              && Committed(s'.committed, slot) == o + 1 && CommittedOverUnacked(s', slot)
              && RowKept(s, s', KeyFor(Log(s.log, slot.part)[skipped], slot.consumer))
  {
    var rec, k := Log(s.log, slot.part)[o], KeyFor(Log(s.log, slot.part)[skipped], slot.consumer);
    OnePollRuns(r, s, w, slot, o, Worker.CLEAN_PLAN);
    var acts, s' :| OnePoll(r, s, w, slot, o, Worker.CLEAN_PLAN, acts, s');
    CleanCallSucceeds(s.table, KeyFor(rec, slot.consumer), rec.value.job.eventType);
    assert RowKept(s, s', k);
    FrontierIsLongest(AcksOf(s'), slot.consumer, Log(s.log, slot.part), skipped + 1);
  }

  /** So an event that was answered 204 is lost when its last record is the one skipped. */
  lemma StartPastLosesEvent(r: Rules, s: State, w: nat, slot: Slot, skipped: nat, o: nat)
    requires w !in s.workers && skipped < o < |Log(s.log, slot.part)|
    requires Allowed(r, s, Poll(w, slot.consumer, slot.part, o, 1))
    requires var records := Log(s.log, slot.part);
             && var event := records[skipped].key;
             && s.part(event) == slot.part && event in s.hist.answered && !Ledger.IsPending(s.db.outbox, event)
             && KeyFor(records[skipped], slot.consumer) == Key(event, slot.consumer)
             && Unacked(s, Key(event, slot.consumer))
             && Handleable(records[o].value) && records[o].value.job.stripeEventId != event
             && forall i :: o < i < |records| ==> records[i].key != event
    ensures var event := Log(s.log, slot.part)[skipped].key;
            exists acts, s' ::
              && OnePoll(r, s, w, slot, o, Worker.CLEAN_PLAN, acts, s')
              && CommittedOverUnacked(s', slot) && Lost(s', event, slot.consumer)
              && RowKept(s, s', Key(event, slot.consumer))
  {
    StartPastUnackedCommitsOverIt(r, s, w, slot, skipped, o);
  }

  // ---------------------------------------------------------------- the poll loop after a retryable verdict

  /** Every rule but the one on batch starts. */
  const ALL_BUT_STARTS := Rules(NO_SLOT, EVERY_SLOT, EVERY_EVENT, true, true, true, true)

  function SetupActs(ja: Job, jb: Job): seq<Action> {
    (AcceptActs(0, ja) + AcceptActs(0, jb)) + (PublishActs(0) + PublishActs(0))
  }

  /** Both events accepted, answered and published, and no worker has run yet. */
  ghost predicate BothPublished(s: State, part: string -> nat, ja: Job, jb: Job) {
    && s.part == part
    && Log(s.log, part(ja.stripeEventId)) ==
       [Record(ja.stripeEventId, Encoded(ja)), Record(jb.stripeEventId, Encoded(jb))]
    && ja.stripeEventId in s.hist.answered && !Ledger.IsPending(s.db.outbox, ja.stripeEventId)
    && s.table == map[] && s.workers == map[] && s.committed == map[] && s.hist.rejected == {}
  }

  lemma BothAcceptedLead(r: Rules, part: string -> nat, ja: Job, jb: Job)
    requires ja.stripeEventId != jb.stripeEventId
    ensures Leads(r, Init(part), AcceptActs(0, ja) + AcceptActs(0, jb), Accepted(Accepted(Init(part), ja), jb))
  {
    var s1 := Accepted(Init(part), ja);
    AcceptLeads(r, Init(part), 0, ja);
    AcceptLeads(r, s1, 0, jb);
    LeadsConcat(r, Init(part), AcceptActs(0, ja), s1, AcceptActs(0, jb), Accepted(s1, jb));
  }

  lemma FirstOfTwo(a: Ledger.OutboxRow, b: Ledger.OutboxRow)
    requires a.status.Pending? && b.status.Pending? && a.id < b.id && a.event != b.event
    ensures Ledger.NextPending([a, b]) == Some(0)
    ensures var outbox' := Ledger.MarkPublished([a, b], a.event);
            outbox' == [a.(status := Ledger.Published), b] && Ledger.NextPending(outbox') == Some(1)
  {
    assert [a, b][..1] == [a] && [a][..0] == [];
    var outbox' := Ledger.MarkPublished([a, b], a.event);
    assert outbox'[..1] == [a.(status := Ledger.Published)];
  }

  lemma TwoRows(part: string -> nat, ja: Job, jb: Job)
    requires ja.stripeEventId != jb.stripeEventId
    ensures var s := Accepted(Accepted(Init(part), ja), jb);
            && |s.db.outbox| == 2 && Ledger.NextPending(s.db.outbox) == Some(0)
            && s.db.outbox[0].event == ja.stripeEventId && s.db.outbox[0].payload == Encoded(ja)
            && s.db.outbox[1].event == jb.stripeEventId && s.db.outbox[1].payload == Encoded(jb)
            && Ledger.NextPending(Published(s, 0).db.outbox) == Some(1)
  {
    var s := Accepted(Accepted(Init(part), ja), jb);
    FirstOfTwo(s.db.outbox[0], s.db.outbox[1]);
    assert s.db.outbox == [s.db.outbox[0], s.db.outbox[1]];
  }

  lemma TwoRecords(part: string -> nat, ja: Job, jb: Job)
    requires ja.stripeEventId != jb.stripeEventId && part(ja.stripeEventId) == part(jb.stripeEventId)
    ensures var s := Accepted(Accepted(Init(part), ja), jb);
            |s.db.outbox| == 2 && BothPublished(Published(Published(s, 0), 1), part, ja, jb)
  {
    TwoRows(part, ja, jb);
    var s := Accepted(Accepted(Init(part), ja), jb);
    var s1 := Published(s, 0);
    assert Log(s1.log, part(ja.stripeEventId)) == [Record(ja.stripeEventId, Encoded(ja))];
  }

  lemma SetupLeads(r: Rules, part: string -> nat, ja: Job, jb: Job)
    requires ja.stripeEventId != jb.stripeEventId && part(ja.stripeEventId) == part(jb.stripeEventId)
    ensures exists s :: Leads(r, Init(part), SetupActs(ja, jb), s) && BothPublished(s, part, ja, jb)
  {
    var s2 := Accepted(Accepted(Init(part), ja), jb);
    BothAcceptedLead(r, part, ja, jb);
    TwoRows(part, ja, jb);
    TwoRecords(part, ja, jb);
    PublishLeads(r, s2, 0, 0);
    PublishLeads(r, Published(s2, 0), 0, 1);
    LeadsConcat(r, s2, PublishActs(0), Published(s2, 0), PublishActs(0), Published(Published(s2, 0), 1));
    LeadsConcat(r, Init(part), AcceptActs(0, ja) + AcceptActs(0, jb), s2, PublishActs(0) + PublishActs(0),
                Published(Published(s2, 0), 1));
  }

  lemma NoPollsConcat(a: seq<Action>, b: seq<Action>)
    requires NoPolls(a) && NoPolls(b)
    ensures NoPolls(a + b)
  {
  }

  lemma SetupHasNoPolls(ja: Job, jb: Job)
    ensures NoPolls(SetupActs(ja, jb))
  {
    assert NoPolls(AcceptActs(0, ja)) && NoPolls(AcceptActs(0, jb)) && NoPolls(PublishActs(0));
    NoPollsConcat(AcceptActs(0, ja), AcceptActs(0, jb));
    NoPollsConcat(PublishActs(0), PublishActs(0));
    NoPollsConcat(AcceptActs(0, ja) + AcceptActs(0, jb), PublishActs(0) + PublishActs(0));
  }

  /** A new record whose delivery gets a retryable verdict: the row ends failed, and the call returns false. */
  lemma RetryableCallFails(t: Table, k: Key, ty: string, transport: Downstream.Transport)
    requires k !in t
    requires Downstream.Verdict(transport).Some? && Downstream.IsRetryable(Downstream.Verdict(transport).value)
    ensures var plan := Worker.CLEAN_PLAN.(transport := transport);
            var (t', ok, _) := H.RunHandler(t, k, ty, H.Ready, plan);
            plan.Alone() && !ok && IsFailed(t', k)
  {
    var plan, e := Worker.CLEAN_PLAN.(transport := transport), Downstream.Verdict(transport).value;
    var t1 := Exec(t, Insert(k, ty));
    H.RunStep(t, k, ty, H.Ready, plan);
    H.RunHandlerFromGrant(t1, k, ty, Claim(New, 1), plan);
    H.RunStep(t1, k, ty, H.GotError(e), plan);
  }

  /** What the run leaves of the first event: answered 204 and gone, its row failed, its offset committed. */
  ghost predicate LostAfterFailure(s: State, event: string, slot: Slot) {
    Lost(s, event, slot.consumer) && IsFailed(s.table, Key(event, slot.consumer)) && CommittedOverUnacked(s, slot)
  }

  /** The first poll: the delivery of the first record fails, and nothing is committed. */
  lemma FirstPollFails(s: State, part: string -> nat, ja: Job, jb: Job, slot: Slot, transport: Downstream.Transport)
    requires BothPublished(s, part, ja, jb) && ja.stripeEventId != "" && slot.part == part(ja.stripeEventId)
    requires Downstream.Verdict(transport).Some? && Downstream.IsRetryable(Downstream.Verdict(transport).value)
    ensures exists acts, s' ::
              && OnePoll(ALL_BUT_STARTS, s, 0, slot, 0, Worker.CLEAN_PLAN.(transport := transport), acts, s')
              && IsFailed(s'.table, Key(ja.stripeEventId, slot.consumer)) && s'.hist.rejected == {}
  {
    RetryableCallFails(s.table, Key(ja.stripeEventId, slot.consumer), ja.eventType, transport);
    OnePollRuns(ALL_BUT_STARTS, s, 0, slot, 0, Worker.CLEAN_PLAN.(transport := transport));
  }

  /** The second poll starts behind the failed record, and commits over it. */
  lemma SecondPollCommits(s: State, s1: State, part: string -> nat, ja: Job, jb: Job, slot: Slot)
    requires BothPublished(s, part, ja, jb) && Kept(s, s1) && s1.workers == map[] && s1.hist.rejected == {}
    requires ja.stripeEventId != jb.stripeEventId && jb.stripeEventId != "" && slot.part == part(ja.stripeEventId)
    requires IsFailed(s1.table, Key(ja.stripeEventId, slot.consumer))
    ensures exists acts, s' ::
              && OnePoll(ALL_BUT_STARTS, s1, 0, slot, 1, Worker.CLEAN_PLAN, acts, s')
              && LostAfterFailure(s', ja.stripeEventId, slot)
  {
    StartPastLosesEvent(ALL_BUT_STARTS, s1, 0, slot, 0, 1);
  }

  /** The run never rewinds, and it loses the event. */
  ghost predicate LosesEvent(s0: State, acts: seq<Action>, s: State, event: string, slot: Slot) {
    Leads(ALL_BUT_STARTS, s0, acts, s) && NeverRewinds(acts) && LostAfterFailure(s, event, slot)
  }

  lemma LossHolds(s0: State, acts: seq<Action>, s: State, event: string, slot: Slot, to: nat)
    requires Leads(ALL_BUT_STARTS, s0, acts, s) && ReadsOn(acts, slot, 0, to) && LostAfterFailure(s, event, slot)
    ensures exists acts, s' :: LosesEvent(s0, acts, s', event, slot)
  {
    ReadsOnNeverRewinds(acts, slot, to);
    assert LosesEvent(s0, acts, s, event, slot);
  }

  lemma OnePollReadsOn(s: State, slot: Slot, o: nat, plan: H.Plan, acts: seq<Action>, s': State)
    requires o < |Log(s.log, slot.part)| && Handleable(Log(s.log, slot.part)[o].value)
    requires OnePoll(ALL_BUT_STARTS, s, 0, slot, o, plan, acts, s')
    ensures ReadsOn(acts, slot, o, o + 1)
  {
    var poll := Worker.PollPlan(1, [plan], NoFault);
    var body :| WorkerRefinement.AsPlanned(0, plan, body) &&
                acts == WorkerRefinement.PollActs(0, slot.consumer, slot.part, o, poll, body);
    FetchReadsOn(Poll(0, slot.consumer, slot.part, o, 1), body + [CommitOffset(0, NoFault)], slot);
  }

  lemma BothPolls(s0: State, setup: seq<Action>, s: State, slot: Slot, plan: H.Plan, first: seq<Action>, s1: State,
                  second: seq<Action>, s2: State, event: string)
    requires Leads(ALL_BUT_STARTS, s0, setup, s) && NoPolls(setup)
    requires 0 < |Log(s.log, slot.part)| && Handleable(Log(s.log, slot.part)[0].value)
    requires 1 < |Log(s1.log, slot.part)| && Handleable(Log(s1.log, slot.part)[1].value)
    requires OnePoll(ALL_BUT_STARTS, s, 0, slot, 0, plan, first, s1)
    requires OnePoll(ALL_BUT_STARTS, s1, 0, slot, 1, Worker.CLEAN_PLAN, second, s2) && LostAfterFailure(s2, event, slot)
    ensures exists acts, s' :: LosesEvent(s0, acts, s', event, slot)
  {
    LeadsConcat(ALL_BUT_STARTS, s0, setup, s, first, s1);
    LeadsConcat(ALL_BUT_STARTS, s0, setup + first, s1, second, s2);
    NoPollsReadOn(setup, slot, 0);
    OnePollReadsOn(s, slot, 0, plan, first, s1);
    OnePollReadsOn(s1, slot, 1, Worker.CLEAN_PLAN, second, s2);
    ReadsOnConcat(setup, first, slot, 0, 0, 1);
    ReadsOnConcat(setup + first, second, slot, 0, 1, 2);
    LossHolds(s0, (setup + first) + second, s2, event, slot, 2);
  }

  lemma LossAfterFirst(s0: State, setup: seq<Action>, s: State, part: string -> nat, ja: Job, jb: Job, slot: Slot,
                       plan: H.Plan, first: seq<Action>, s1: State)
    requires Leads(ALL_BUT_STARTS, s0, setup, s) && BothPublished(s, part, ja, jb)
    requires NoPolls(setup) && slot.part == part(ja.stripeEventId)
    requires ja.stripeEventId != jb.stripeEventId && ja.stripeEventId != "" && jb.stripeEventId != ""
    requires OnePoll(ALL_BUT_STARTS, s, 0, slot, 0, plan, first, s1)
    requires IsFailed(s1.table, Key(ja.stripeEventId, slot.consumer)) && s1.hist.rejected == {}
    ensures exists acts, s' :: LosesEvent(s0, acts, s', ja.stripeEventId, slot)
  {
    SecondPollCommits(s, s1, part, ja, jb, slot);
    var second, s2 :| OnePoll(ALL_BUT_STARTS, s1, 0, slot, 1, Worker.CLEAN_PLAN, second, s2) &&
                      LostAfterFailure(s2, ja.stripeEventId, slot);
    BothPolls(s0, setup, s, slot, plan, first, s1, second, s2, ja.stripeEventId);
  }

  lemma LossAfterSetup(s0: State, setup: seq<Action>, s: State, part: string -> nat, ja: Job, jb: Job, slot: Slot,
                       transport: Downstream.Transport)
    requires Leads(ALL_BUT_STARTS, s0, setup, s) && BothPublished(s, part, ja, jb)
    requires NoPolls(setup) && slot.part == part(ja.stripeEventId)
    requires ja.stripeEventId != jb.stripeEventId && ja.stripeEventId != "" && jb.stripeEventId != ""
    requires Downstream.Verdict(transport).Some? && Downstream.IsRetryable(Downstream.Verdict(transport).value)
    ensures exists acts, s' :: LosesEvent(s0, acts, s', ja.stripeEventId, slot)
  {
    var plan := Worker.CLEAN_PLAN.(transport := transport);
    FirstPollFails(s, part, ja, jb, slot, transport);
    var first, s1 :| && OnePoll(ALL_BUT_STARTS, s, 0, slot, 0, plan, first, s1)
                     && IsFailed(s1.table, Key(ja.stripeEventId, slot.consumer)) && s1.hist.rejected == {};
    LossAfterFirst(s0, setup, s, part, ja, jb, slot, plan, first, s1);
  }

  lemma LossIsRun(s0: State, acts: seq<Action>, s: State, event: string, slot: Slot)
    requires LosesEvent(s0, acts, s, event, slot)
    ensures exists acts ::
              && Run(ALL_BUT_STARTS, s0, acts) && NeverRewinds(acts)
              && LostAfterFailure(After(ALL_BUT_STARTS, s0, acts), event, slot)
  {
    LeadsIsRun(ALL_BUT_STARTS, s0, acts, s);
  }

  /** The failure that the rule on batch starts excludes, as a run of this very code: two events are accepted
      and published, the delivery of the first gets a retryable verdict, and the poll loop goes on with its
      next fetch. It delivers the second, commits past both, and the first event, answered 204, is lost: it is
      not pending, its record lies below the committed offset, its row is failed and was never rejected.
      Every other rule holds, and each fetch starts where the one before it ended. */
  lemma RuleOnStartsIsNeeded(part: string -> nat, ja: Job, jb: Job, consumer: string, transport: Downstream.Transport)
    requires ja.stripeEventId != jb.stripeEventId && ja.stripeEventId != "" && jb.stripeEventId != ""
    requires part(ja.stripeEventId) == part(jb.stripeEventId)
    requires Downstream.Verdict(transport).Some? && Downstream.IsRetryable(Downstream.Verdict(transport).value)
    ensures exists acts ::
              && Run(ALL_BUT_STARTS, Init(part), acts) && NeverRewinds(acts)
              && LostAfterFailure(After(ALL_BUT_STARTS, Init(part), acts), ja.stripeEventId,
                                  Slot(consumer, part(ja.stripeEventId)))
  {
    var slot, setup := Slot(consumer, part(ja.stripeEventId)), SetupActs(ja, jb);
    SetupLeads(ALL_BUT_STARTS, part, ja, jb);
    var s :| Leads(ALL_BUT_STARTS, Init(part), setup, s) && BothPublished(s, part, ja, jb);
    SetupHasNoPolls(ja, jb);
    LossAfterSetup(Init(part), setup, s, part, ja, jb, slot, transport);
    var acts, s2 :| LosesEvent(Init(part), acts, s2, ja.stripeEventId, slot);
    LossIsRun(Init(part), acts, s2, ja.stripeEventId, slot);
  }

  // ---------------------------------------------------------------- two workers on one event

  /** Some run from empty tables ends in this state. */
  ghost predicate Reachable(r: Rules, part: string -> nat, s: State) {
    exists acts :: Leads(r, Init(part), acts, s)
  }

  lemma ReachOn(r: Rules, part: string -> nat, s: State, acts: seq<Action>, s': State)
    requires Reachable(r, part, s) && Leads(r, s, acts, s')
    ensures Reachable(r, part, s')
  {
    var before :| Leads(r, Init(part), before, s);
    LeadsConcat(r, Init(part), before, s, acts, s');
  }

  lemma ReachStep(r: Rules, part: string -> nat, s: State, a: Action)
    requires Reachable(r, part, s) && Allowed(r, s, a)
    ensures Reachable(r, part, Do(s, a))
  {
    LeadsOne(r, s, a);
    ReachOn(r, part, s, [a], Do(s, a));
  }

  /** Workers 0 and 1 are at these steps of handling the same record, the second one in partition `p1`; this is
      the table, and downstream has answered 2xx this often. */
  ghost predicate Racing(s: State, wk: Pipeline.Worker, p1: nat, t: Table, pc0: H.Pc, pc1: H.Pc, oks: nat)
    requires wk.pos < |wk.batch|
  {
    && s.table == t && s.workers == map[0 := wk.(pc := pc0), 1 := wk.(part := p1, pc := pc1)]
    && s.hist.oks[KeyOf(wk)] == oks && s.hist.windowFaults[KeyOf(wk)] == 0
  }

  ghost predicate RaceReaches(r: Rules, part: string -> nat, wk: Pipeline.Worker, p1: nat, t: Table, pc0: H.Pc,
                              pc1: H.Pc, oks: nat)
    requires wk.pos < |wk.batch|
  {
    exists s :: Reachable(r, part, s) && Racing(s, wk, p1, t, pc0, pc1, oks)
  }

  lemma RacingWorkers(workers: map<nat, Pipeline.Worker>, wk: Pipeline.Worker, p1: nat, pc0: H.Pc, pc1: H.Pc, w: nat,
                      pc': H.Pc)
    requires workers == map[0 := wk.(pc := pc0), 1 := wk.(part := p1, pc := pc1)] && w < 2
    ensures workers[w := workers[w].(pc := pc')] ==
            map[0 := wk.(pc := if w == 0 then pc' else pc0), 1 := wk.(part := p1, pc := if w == 0 then pc1 else pc')]
  {
  }

  lemma RacingStep(s: State, wk: Pipeline.Worker, p1: nat, t: Table, pc0: H.Pc, pc1: H.Pc, oks: nat, w: nat,
                   c: H.Choice, pc: H.Pc, pc': H.Pc)
    requires wk.pos < |wk.batch| && Handleable(wk.batch[wk.pos].value)
    requires Racing(s, wk, p1, t, pc0, pc1, oks) && w < 2 && pc == (if w == 0 then pc0 else pc1)
    requires H.Enabled(pc, c) && !pc.GotOk? && pc' == H.NextPc(t, KeyOf(wk), TypeOf(wk), pc, c) && !pc'.Done?
    ensures Enabled(s, Handle(w, c))
    ensures Racing(Do(s, Handle(w, c)), wk, p1, H.NextTable(t, KeyOf(wk), TypeOf(wk), pc, c),
                   if w == 0 then pc' else pc0, if w == 0 then pc1 else pc', if pc'.GotOk? then oks + 1 else oks)
  {
    assert s.workers[w] == wk.(part := s.workers[w].part, pc := pc);
    WorkerRefinement.CallMoves(s, w, c);
    RacingWorkers(s.workers, wk, p1, pc0, pc1, w, pc');
  }

  /** One of the two takes its next step. */
  lemma RaceStep(r: Rules, part: string -> nat, wk: Pipeline.Worker, p1: nat, t: Table, pc0: H.Pc, pc1: H.Pc, oks: nat,
                 w: nat, c: H.Choice, pc: H.Pc, pc': H.Pc)
    requires wk.pos < |wk.batch| && Handleable(wk.batch[wk.pos].value)
    requires RaceReaches(r, part, wk, p1, t, pc0, pc1, oks) && w < 2 && pc == (if w == 0 then pc0 else pc1)
    requires H.Enabled(pc, c) && !pc.GotOk? && pc' == H.NextPc(t, KeyOf(wk), TypeOf(wk), pc, c) && !pc'.Done?
    ensures RaceReaches(r, part, wk, p1, H.NextTable(t, KeyOf(wk), TypeOf(wk), pc, c), if w == 0 then pc' else pc0,
                        if w == 0 then pc1 else pc', if pc'.GotOk? then oks + 1 else oks)
  {
    var s :| Reachable(r, part, s) && Racing(s, wk, p1, t, pc0, pc1, oks);
    RacingStep(s, wk, p1, t, pc0, pc1, oks, w, c, pc, pc');
    ReachStep(r, part, s, Handle(w, c));
  }

  lemma SecondIsGranted(r: Rules, part: string -> nat, wk: Pipeline.Worker, p1: nat, t: Table, g0: H.Pc)
    requires wk.pos < |wk.batch| && Handleable(wk.batch[wk.pos].value) && KeyOf(wk) in t
    requires RaceReaches(r, part, wk, p1, t, g0, H.Selecting, 0) && t[KeyOf(wk)].status.Processing?
    ensures RaceReaches(r, part, wk, p1, Exec(t, Bump(KeyOf(wk))), g0,
                        H.Granted(Claim(Retry, t[KeyOf(wk)].attempts + 1)), 0)
  {
    var db, g1 := H.Db(NoFault), H.Granted(Claim(Retry, t[KeyOf(wk)].attempts + 1));
    RaceStep(r, part, wk, p1, t, g0, H.Selecting, 0, 1, db, H.Selecting, H.Retrying);
    RaceStep(r, part, wk, p1, t, g0, H.Retrying, 0, 1, db, H.Retrying, g1);
  }

  /** Without one owner, two workers may hold a claim on one event at a time: `processing` is no lock. */
  lemma BothAreGranted(r: Rules, part: string -> nat, wk: Pipeline.Worker, p1: nat, t: Table)
    requires wk.pos < |wk.batch| && Handleable(wk.batch[wk.pos].value)
    requires RaceReaches(r, part, wk, p1, t, H.Ready, H.Ready, 0) && KeyOf(wk) !in t
    ensures RaceReaches(r, part, wk, p1, Exec(Exec(t, Insert(KeyOf(wk), TypeOf(wk))), Bump(KeyOf(wk))),
                        H.Granted(Claim(New, 1)), H.Granted(Claim(Retry, 2)), 0)
  {
    var db, g0 := H.Db(NoFault), H.Granted(Claim(New, 1));
    var t1 := Exec(t, Insert(KeyOf(wk), TypeOf(wk)));
    RaceStep(r, part, wk, p1, t, H.Ready, H.Ready, 0, 0, db, H.Ready, g0);
    RaceStep(r, part, wk, p1, t1, g0, H.Ready, 0, 1, db, H.Ready, H.Selecting);
    SecondIsGranted(r, part, wk, p1, t1, g0);
  }

  lemma BothCall(r: Rules, part: string -> nat, wk: Pipeline.Worker, p1: nat, t: Table, c0: Claim, c1: Claim)
    requires wk.pos < |wk.batch| && Handleable(wk.batch[wk.pos].value)
    requires RaceReaches(r, part, wk, p1, t, H.Granted(c0), H.Granted(c1), 0)
    ensures RaceReaches(r, part, wk, p1, t, H.Calling(c0), H.Calling(c1), 0)
  {
    RaceStep(r, part, wk, p1, t, H.Granted(c0), H.Granted(c1), 0, 0, H.Call, H.Granted(c0), H.Calling(c0));
    RaceStep(r, part, wk, p1, t, H.Calling(c0), H.Granted(c1), 0, 1, H.Call, H.Granted(c1), H.Calling(c1));
  }

  lemma BothAreAnswered(r: Rules, part: string -> nat, wk: Pipeline.Worker, p1: nat, t: Table, c0: Claim, c1: Claim)
    requires wk.pos < |wk.batch| && Handleable(wk.batch[wk.pos].value)
    requires RaceReaches(r, part, wk, p1, t, H.Calling(c0), H.Calling(c1), 0)
    ensures RaceReaches(r, part, wk, p1, t, H.GotOk, H.GotOk, 2)
  {
    var ok := H.Answer(Downstream.Response(200));
    RaceStep(r, part, wk, p1, t, H.Calling(c0), H.Calling(c1), 0, 0, ok, H.Calling(c0), H.GotOk);
    RaceStep(r, part, wk, p1, t, H.GotOk, H.Calling(c1), 1, 1, ok, H.Calling(c1), H.GotOk);
  }

  /** Every rule but the one on owners. */
  const ALL_BUT_OWNERS := Rules(EVERY_SLOT, NO_SLOT, EVERY_EVENT, true, true, true, true)

  function FirstRecord(part: string -> nat, job: Job, consumer: string): Pipeline.Worker {
    Pipeline.Worker(consumer, part(job.stripeEventId), 0, [Record(job.stripeEventId, Encoded(job))], 0, H.Ready)
  }

  lemma PublishOn(r: Rules, part: string -> nat, s: State, i: nat)
    requires Reachable(r, part, s) && s.publishers == map[] && Ledger.NextPending(s.db.outbox) == Some(i)
    ensures Reachable(r, part, Published(s, i))
  {
    PublishLeads(r, s, 0, i);
    ReachOn(r, part, s, PublishActs(0), Published(s, i));
  }

  lemma OneRow(part: string -> nat, job: Job)
    ensures var s := Accepted(Init(part), job);
            && s.db.outbox == [NewRow(1, job)] && Ledger.NextPending(s.db.outbox) == Some(0) && s.publishers == map[]
            && Log(Published(s, 0).log, part(job.stripeEventId)) == [Record(job.stripeEventId, Encoded(job))]
  {
    assert [NewRow(1, job)][..0] == [];
  }

  lemma OnePublished(r: Rules, part: string -> nat, job: Job)
    ensures exists s ::
              && Reachable(r, part, s)
              && s.log == Append(map[], part(job.stripeEventId), Record(job.stripeEventId, Encoded(job)))
              && s.table == map[] && s.workers == map[] && s.hist.oks == multiset{} && s.hist.windowFaults == multiset{}
  {
    var s1 := Accepted(Init(part), job);
    OneRow(part, job);
    AcceptLeads(r, Init(part), 0, job);
    assert Reachable(r, part, s1);
    PublishOn(r, part, s1, 0);
  }

  /** Each of the two workers fetches the record at the start of its partition. */
  lemma TwoFetch(r: Rules, part: string -> nat, s: State, job: Job, consumer: string, p1: nat)
    requires Reachable(r, part, s) && s.table == map[] && s.workers == map[]
    requires s.hist.oks == multiset{} && s.hist.windowFaults == multiset{}
    requires var p, rec := part(job.stripeEventId), Record(job.stripeEventId, Encoded(job));
             && Log(s.log, p) == [rec] == Log(s.log, p1)
             && (r.oneOwner(Slot(consumer, p1)) ==> p1 != p)
    ensures RaceReaches(r, part, FirstRecord(part, job, consumer), p1, map[], H.Ready, H.Ready, 0)
  {
    var p, rec := part(job.stripeEventId), Record(job.stripeEventId, Encoded(job));
    var a0, a1 := Poll(0, consumer, p, 0, 1), Poll(1, consumer, p1, 0, 1);
    ReachStep(r, part, s, a0);
    ReachStep(r, part, Do(s, a0), a1);
    assert [rec][0..1] == [rec];
    assert Racing(Do(Do(s, a0), a1), FirstRecord(part, job, consumer), p1, map[], H.Ready, H.Ready, 0);
  }

  lemma ReachableByRun(r: Rules, part: string -> nat, s: State)
    requires Reachable(r, part, s)
    ensures exists acts :: Run(r, Init(part), acts) && After(r, Init(part), acts) == s
  {
    var acts :| Leads(r, Init(part), acts, s);
    LeadsIsRun(r, Init(part), acts, s);
  }

  /** The event is answered 2xx twice, and no fault hit between an answer and its mark. */
  ghost predicate AnsweredTwice(s: State, k: Key) {
    s.hist.oks[k] == 2 && s.hist.windowFaults[k] == 0
  }

  lemma RaceAnswersTwice(r: Rules, part: string -> nat, job: Job, consumer: string, p1: nat)
    requires job.stripeEventId != ""
    requires RaceReaches(r, part, FirstRecord(part, job, consumer), p1, map[], H.Ready, H.Ready, 0)
    ensures exists acts ::
              Run(r, Init(part), acts) && AnsweredTwice(After(r, Init(part), acts), Key(job.stripeEventId, consumer))
  {
    var wk := FirstRecord(part, job, consumer);
    var t := Exec(Exec(map[], Insert(KeyOf(wk), TypeOf(wk))), Bump(KeyOf(wk)));
    BothAreGranted(r, part, wk, p1, map[]);
    BothCall(r, part, wk, p1, t, Claim(New, 1), Claim(Retry, 2));
    BothAreAnswered(r, part, wk, p1, t, Claim(New, 1), Claim(Retry, 2));
    var s :| Reachable(r, part, s) && Racing(s, wk, p1, t, H.GotOk, H.GotOk, 2);
    ReachableByRun(r, part, s);
  }

  /** So with several owners an event may be answered 2xx more than once without any fault in between, under
      every other rule: the bound on the answers does rest on the rule. */
  lemma TwoOwnersAnswerTwice(part: string -> nat, job: Job, consumer: string)
    requires job.stripeEventId != ""
    ensures exists acts ::
              && Run(ALL_BUT_OWNERS, Init(part), acts)
              && AnsweredTwice(After(ALL_BUT_OWNERS, Init(part), acts), Key(job.stripeEventId, consumer))
  {
    var r, p := ALL_BUT_OWNERS, part(job.stripeEventId);
    var rec := Record(job.stripeEventId, Encoded(job));
    OnePublished(r, part, job);
    var s :| Reachable(r, part, s) && s.log == Append(map[], p, rec) && s.table == map[] && s.workers == map[] &&
             s.hist.oks == multiset{} && s.hist.windowFaults == multiset{};
    TwoFetch(r, part, s, job, consumer, p);
    RaceAnswersTwice(r, part, job, consumer, p);
  }

  /** Every rule but those on other producers. */
  const ALL_BUT_HOME := Rules(EVERY_SLOT, EVERY_SLOT, NO_EVENT, false, false, true, true)

  /** So does one stray copy: with one owner of every slot, a record that another producer writes to a partition
      that is not the event's own has the event handled by that partition's owner too. */
  lemma StrayCopyAnswersTwice(part: string -> nat, job: Job, consumer: string, p1: nat)
    requires job.stripeEventId != "" && p1 != part(job.stripeEventId)
    ensures exists acts ::
              && Run(ALL_BUT_HOME, Init(part), acts)
              && AnsweredTwice(After(ALL_BUT_HOME, Init(part), acts), Key(job.stripeEventId, consumer))
  {
    var r, p := ALL_BUT_HOME, part(job.stripeEventId);
    var rec := Record(job.stripeEventId, Encoded(job));
    OnePublished(r, part, job);
    var s :| Reachable(r, part, s) && s.log == Append(map[], p, rec) && s.table == map[] && s.workers == map[] &&
             s.hist.oks == multiset{} && s.hist.windowFaults == multiset{};
    ReachStep(r, part, s, ForeignAppend(p1, rec));
    TwoFetch(r, part, Do(s, ForeignAppend(p1, rec)), job, consumer, p1);
    RaceAnswersTwice(r, part, job, consumer, p1);
  }

  // ---------------------------------------------------------------- accepts that commit out of id order

  /** Every rule but the one on commit order. */
  const ALL_BUT_ORDER := Rules(EVERY_SLOT, EVERY_SLOT, EVERY_EVENT, true, true, true, false)

  lemma AppendThenCommit(r: Rules, part: string -> nat, s: State, ja: Job, jb: Job)
    requires Reachable(r, part, s) && !r.inOrder && s.publishers == map[] && s.part == part && s.log == map[]
    requires s.db.outbox == [NewRow(2, jb)]
    requires 0 in s.db.open &&
             s.db.open[0] == Ledger.Tx(Ledger.Accept(Encoded(ja)), ja.stripeEventId, ja.eventType, Ledger.Written(1))
    ensures exists s' ::
              && Reachable(r, part, s') && s'.publishers == map[] && s'.part == part
              && s'.log == Append(map[], part(jb.stripeEventId), Record(jb.stripeEventId, Encoded(jb)))
              && s'.db.outbox == [NewRow(2, jb), NewRow(1, ja)]
  {
    assert s.db.outbox[..0] == [];
    SelectLeads(r, s, 0, 0);
    var s1 := s.(publishers := map[0 := Selected(jb.stripeEventId, Encoded(jb))]);
    ProduceLeads(r, s1, 0, jb.stripeEventId, Encoded(jb), false);
    var s2 := AfterProduce(s1, 0, jb.stripeEventId, Encoded(jb), false);
    CommitLeads(r, s2, 0);
    ReachOn(r, part, s, [SelectPending(0)], s1);
    ReachOn(r, part, s1, [Produce(0, true, false)], s2);
    ReachOn(r, part, s2, [Transact(0, Ledger.Commit(NoFault))], Committing(s2, 0));
  }

  lemma LateRowFirst(part: string -> nat, ja: Job, jb: Job)
    requires ja.stripeEventId != jb.stripeEventId
    ensures exists s ::
              && Reachable(ALL_BUT_ORDER, part, s) && s.publishers == map[] && s.part == part
              && s.log == Append(map[], part(jb.stripeEventId), Record(jb.stripeEventId, Encoded(jb)))
              && s.db.outbox == [NewRow(2, jb), NewRow(1, ja)]
  {
    var r, s0 := ALL_BUT_ORDER, Init(part);
    var s1 := Writing(s0, 0, ja, Ledger.Written(1));
    WriteLeads(r, s0, 0, ja);
    AcceptLeads(r, s1, 1, jb);
    var s2 := Accepted(s1, jb);
    ReachOn(r, part, s1, AcceptActs(1, jb), s2);
    AppendThenCommit(r, part, s2, ja, jb);
  }

  lemma LowerIdFirst(a: Ledger.OutboxRow, b: Ledger.OutboxRow)
    requires a.status.Pending? && b.status.Pending? && a.id < b.id && a.event != b.event
    ensures Ledger.NextPending([b, a]) == Some(1)
    ensures Ledger.MarkPublished([b, a], a.event) == [b, a.(status := Ledger.Published)]
    ensures Ledger.NextPending([b, a.(status := Ledger.Published)]) == Some(0)
  {
    assert [b, a][..1] == [b] && [b][..0] == [];
    assert [b, a.(status := Ledger.Published)][..1] == [b];
  }

  lemma BothRowsPublished(s: State, a: Ledger.OutboxRow, b: Ledger.OutboxRow, p: nat)
    requires s.db.outbox == [b, a] && a.status.Pending? && b.status.Pending? && a.id < b.id && a.event != b.event
    requires s.part(a.event) == p == s.part(b.event) && Log(s.log, p) == [Record(b.event, b.payload)]
    ensures Ledger.NextPending(s.db.outbox) == Some(1) && Ledger.NextPending(Published(s, 1).db.outbox) == Some(0)
    ensures !Publishing.Contiguous(Log(Published(Published(s, 1), 0).log, p))
  {
    LowerIdFirst(a, b);
    var records := Log(Published(Published(s, 1), 0).log, p);
    assert records == [Record(b.event, b.payload), Record(a.event, a.payload), Record(b.event, b.payload)];
    assert records[0].key == records[2].key && records[1].key != records[0].key;
  }

  /** The later id was selected and appended before the lower id was committed: the head of the queue then
      changes under its feet, and its copies end up apart. */
  lemma OutOfOrderPartsCopies(part: string -> nat, ja: Job, jb: Job)
    requires ja.stripeEventId != jb.stripeEventId && part(ja.stripeEventId) == part(jb.stripeEventId)
    ensures exists acts ::
              && Run(ALL_BUT_ORDER, Init(part), acts)
              && !Publishing.Contiguous(Log(After(ALL_BUT_ORDER, Init(part), acts).log, part(ja.stripeEventId)))
  {
    var r, p := ALL_BUT_ORDER, part(ja.stripeEventId);
    var rowA, rowB := NewRow(1, ja), NewRow(2, jb);
    LateRowFirst(part, ja, jb);
    var s :| && Reachable(r, part, s) && s.publishers == map[] && s.part == part
             && s.log == Append(map[], p, Record(jb.stripeEventId, Encoded(jb))) && s.db.outbox == [rowB, rowA];
    BothRowsPublished(s, rowA, rowB, p);
    PublishOn(r, part, s, 1);
    PublishOn(r, part, Published(s, 1), 0);
    ReachableByRun(r, part, Published(Published(s, 1), 0));
  }
}
