/** The invariant of all runs: each group of facts is kept by every action its rules allow. */
module Runs {
  import opened Sequences
  import opened Completions
  import opened Pipeline
  import opened Invariants
  import opened Delivery
  import opened Ownership
  import opened Publishing
  import Ledger

  // ---------------------------------------------------------------- the invariant of all runs

  ghost predicate StoreInv(s: State) {
    && Ledger.Inv(s.db) && Live(s.db)
    && AnswersOk(s.hist.answered, s.checking, s.db)
    && PublishedLogged(s.part, s.log, s.db.outbox) && PublishersOk(s)
  }

  ghost predicate WorkerInv(s: State) {
    && BatchesOk(s.log, s.workers) && AllProgressOk(AcksOf(s), s.workers)
    && s.table == ExecAll(map[], s.hist.stmts)
    && CallsDistinct(s.hist.calls) && CallsCounted(s.table, s.hist.calls)
    && GrantsFresh(s.table, s.hist.calls, s.workers)
  }

  ghost predicate OffsetInv(s: State, slot: Slot) {
    && StartsOk(AcksOf(s), s.log, s.workers, slot) && OffsetOk(AcksOf(s), s.log, s.committed, slot)
    && CallsInOrder(AcksOf(s), s.log, s.hist.calls, slot)
  }

  ghost predicate CauseInv(s: State) {
    LogFromOutbox(s.part, s.log, s.db.outbox) && TableFromLog(s.part, s.log, s.table)
  }

  /** What one owner of a row's home slot keeps, while its event is read in its own partition only. */
  ghost predicate RowInv(s: State, k: Key) {
    RowsHeld(s.table, s.workers, k) && OksBounded(s.table, s.workers, s.hist.oks, s.hist.windowFaults, k)
  }

  ghost predicate QueueInv(s: State) {
    PublishingOk(s.db.outbox, s.hist.appended, s.publishers)
  }

  /** The row's home slot has one owner, and its event is read nowhere else. */
  predicate OwnRules(r: Rules, part: string -> nat, k: Key) {
    r.oneOwner(HomeOf(part, k)) && r.homeOnly(k.event)
  }

  ghost predicate Inv(r: Rules, s: State) {
    && StoreInv(s) && WorkerInv(s)
    && (forall slot :: r.ackedStarts(slot) ==> OffsetInv(s, slot))
    && (forall e :: r.homeOnly(e) ==> AtHome(s.part, s.log, e))
    && (forall slot :: r.oneOwner(slot) ==> OwnedOnce(s.workers, slot))
    && (forall k :: OwnRules(r, s.part, k) ==> RowInv(s, k))
    && (r.soleProducer ==> CauseInv(s))
    && (r.promptAppends ==> LogIsAppended(s.part, s.log, s.hist.appended))
    && (r.onePublisher && r.inOrder ==> QueueInv(s))
    && (r.promptAppends && r.onePublisher && r.inOrder ==> CopiesTogether(s.part, s.log, s.hist.appended))
  }

  lemma StoreInvStep(s: State, a: Action)
    requires StoreInv(s) && Enabled(s, a)
    ensures StoreInv(Do(s, a))
  {
    LedgerInvStep(s, a);
    LiveStep(s, a);
    AnswersOkStep(s, a);
    PublishedLoggedStep(s, a);
    PublishersOkStep(s, a);
  }

  lemma WorkerInvStep(s: State, a: Action)
    requires WorkerInv(s) && Enabled(s, a)
    ensures WorkerInv(Do(s, a))
  {
    BatchesOkStep(s, a);
    ProgressOkStep(s, a);
    TableStep(s, a);
    CallsOkStep(s, a);
    GrantsFreshStep(s, a);
  }

  lemma OffsetInvStep(s: State, a: Action, slot: Slot)
    requires OffsetInv(s, slot) && WorkerInv(s) && Enabled(s, a)
    requires a.Poll? && Slot(a.consumer, a.part) == slot ==>
               a.start <= Frontier(AcksOf(s), slot.consumer, Log(s.log, slot.part))
    ensures OffsetInv(Do(s, a), slot)
  {
    StartsOkStep(s, a, slot);
    OffsetOkStep(s, a, slot);
    CallsInOrderStep(s, a, slot);
  }

  lemma CauseInvStep(s: State, a: Action)
    requires CauseInv(s) && StoreInv(s) && WorkerInv(s) && Enabled(s, a)
    requires a.ForeignAppend? ==> LateAppend(s, a)
    ensures CauseInv(Do(s, a))
  {
    LogFromOutboxStep(s, a);
    TableFromLogStep(s, a);
  }

  lemma RowInvStep(s: State, a: Action, k: Key)
    requires RowInv(s, k) && WorkerInv(s) && Enabled(s, a)
    requires AtHome(s.part, s.log, k.event) && OwnedOnce(s.workers, HomeOf(s.part, k))
    ensures RowInv(Do(s, a), k)
  {
    RowsHeldStep(s, a, k);
    OksBoundedStep(s, a, k);
  }

  /** The groups that do not depend on a slot. */
  lemma SharedInvStep(r: Rules, s: State, a: Action)
    requires Inv(r, s) && Allowed(r, s, a)
    ensures StoreInv(Do(s, a)) && WorkerInv(Do(s, a)) && (r.soleProducer ==> CauseInv(Do(s, a)))
  {
    StoreInvStep(s, a);
    WorkerInvStep(s, a);
    if r.soleProducer { CauseInvStep(s, a); }
  }

  lemma SlotInvStep(r: Rules, s: State, a: Action, slot: Slot)
    requires Inv(r, s) && Allowed(r, s, a)
    ensures r.ackedStarts(slot) ==> OffsetInv(Do(s, a), slot)
    ensures r.oneOwner(slot) ==> OwnedOnce(Do(s, a).workers, slot)
  {
    if r.ackedStarts(slot) { OffsetInvStep(s, a, slot); }
    if r.oneOwner(slot) { OwnedOnceStep(s, a, slot); }
  }

  lemma HomeInvStep(r: Rules, s: State, a: Action, e: string)
    requires Inv(r, s) && Allowed(r, s, a)
    ensures r.homeOnly(e) ==> AtHome(s.part, NextLog(s, a), e)
  {
    if r.homeOnly(e) { AtHomeStep(s, a, e); }
  }

  lemma OwnRowInvStep(r: Rules, s: State, a: Action, k: Key)
    requires Inv(r, s) && Allowed(r, s, a)
    ensures OwnRules(r, s.part, k) ==> RowInv(Do(s, a), k)
  {
    if OwnRules(r, s.part, k) { RowInvStep(s, a, k); }
  }

  lemma TopicInvStep(r: Rules, s: State, a: Action)
    requires Inv(r, s) && Allowed(r, s, a)
    ensures var s' := Do(s, a);
            && (r.promptAppends ==> LogIsAppended(s'.part, s'.log, s'.hist.appended))
            && (r.onePublisher && r.inOrder ==> QueueInv(s'))
            && (r.promptAppends && r.onePublisher && r.inOrder ==> CopiesTogether(s'.part, s'.log, s'.hist.appended))
  {
    if r.promptAppends { LogIsAppendedStep(s, a); }
    if r.onePublisher && r.inOrder { PublishingOkStep(s, a); }
    if r.promptAppends && r.onePublisher && r.inOrder { CopiesTogetherStep(s, a); }
  }

  lemma InvStep(r: Rules, s: State, a: Action)
    requires Inv(r, s) && Allowed(r, s, a)
    ensures Inv(r, Do(s, a))
  {
    SharedInvStep(r, s, a);
    TopicInvStep(r, s, a);
    forall slot
      ensures r.ackedStarts(slot) ==> OffsetInv(Do(s, a), slot)
      ensures r.oneOwner(slot) ==> OwnedOnce(Do(s, a).workers, slot)
    {
      SlotInvStep(r, s, a, slot);
    }
    forall e
      ensures r.homeOnly(e) ==> AtHome(s.part, NextLog(s, a), e)
    {
      HomeInvStep(r, s, a, e);
    }
    forall k
      ensures OwnRules(r, s.part, k) ==> RowInv(Do(s, a), k)
    {
      OwnRowInvStep(r, s, a, k);
    }
  }

  lemma KeepsOffsets(r: Rules, s: State, slot: Slot)
    requires Inv(r, s) && r.ackedStarts(slot)
    ensures OffsetInv(s, slot)
  {
  }

  lemma KeepsRow(r: Rules, s: State, k: Key)
    requires Inv(r, s) && OwnRules(r, s.part, k)
    ensures RowInv(s, k)
  {
  }

  lemma InitInv(r: Rules, part: string -> nat)
    ensures Inv(r, Init(part))
  {
  }

  lemma {:induction false} RunKeepsInv(r: Rules, s: State, acts: seq<Action>)
    requires Inv(r, s) && Run(r, s, acts)
    ensures Inv(r, After(r, s, acts))
    decreases |acts|
  {
    if acts != [] {
      InvStep(r, s, acts[0]);
      RunKeepsInv(r, Do(s, acts[0]), acts[1..]);
    }
  }

  lemma {:induction false} PartStays(r: Rules, s: State, acts: seq<Action>)
    requires Run(r, s, acts)
    ensures After(r, s, acts).part == s.part
    decreases |acts|
  {
    if acts != [] {
      PartStays(r, Do(s, acts[0]), acts[1..]);
    }
  }

  lemma Reached(r: Rules, part: string -> nat, acts: seq<Action>)
    requires Run(r, Init(part), acts)
    ensures Inv(r, After(r, Init(part), acts)) && After(r, Init(part), acts).part == part
  {
    InitInv(r, part);
    RunKeepsInv(r, Init(part), acts);
    PartStays(r, Init(part), acts);
  }

  lemma {:induction false} RunConcat(r: Rules, s: State, a: seq<Action>, b: seq<Action>)
    requires Run(r, s, a) && Run(r, After(r, s, a), b)
    ensures Run(r, s, a + b) && After(r, s, a + b) == After(r, After(r, s, a), b)
    decreases |a|
  {
    if a == [] {
      EmptyFirst(b);
    } else {
      ConsAppend(a, b);
      RunConcat(r, Do(s, a[0]), a[1..], b);
    }
  }

  // ---------------------------------------------------------------- runs by their states

  ghost predicate TraceStep(r: Rules, s: State, a: Action, s': State) {
    Allowed(r, s, a) && s' == Do(s, a)
  }

  /** The actions lead from the first of these states to the last, one state at a time. */
  ghost predicate Trace(r: Rules, acts: seq<Action>, states: seq<State>) {
    && |states| == |acts| + 1
    && forall i :: 0 <= i < |acts| ==> TraceStep(r, states[i], acts[i], states[i + 1])
  }

  ghost predicate Leads(r: Rules, s: State, acts: seq<Action>, s': State) {
    exists states :: Trace(r, acts, states) && states[0] == s && states[|acts|] == s'
  }

  lemma LeadsNowhere(r: Rules, s: State)
    ensures Leads(r, s, [], s)
  {
    assert Trace(r, [], [s]);
  }

  lemma TraceConsAt(r: Rules, s: State, a: Action, rest: seq<Action>, states: seq<State>, i: nat)
    requires |states| == |rest| + 1 && i <= |rest|
    requires if i == 0 then TraceStep(r, s, a, states[0]) else TraceStep(r, states[i - 1], rest[i - 1], states[i])
    ensures TraceStep(r, ([s] + states)[i], ([a] + rest)[i], ([s] + states)[i + 1])
  {
    ConsAt(a, rest, i);
    ConsAt(s, states, i);
    ConsAt(s, states, i + 1);
  }

  lemma LeadsCons(r: Rules, s: State, a: Action, rest: seq<Action>, s': State)
    requires Allowed(r, s, a) && Leads(r, Do(s, a), rest, s')
    ensures Leads(r, s, [a] + rest, s')
  {
    var states :| Trace(r, rest, states) && states[0] == Do(s, a) && states[|rest|] == s';
    forall i | 0 <= i <= |rest|
      ensures TraceStep(r, ([s] + states)[i], ([a] + rest)[i], ([s] + states)[i + 1])
    {
      TraceConsAt(r, s, a, rest, states, i);
    }
    assert Trace(r, [a] + rest, [s] + states);
  }

  lemma LeadsStep(r: Rules, s: State, acts: seq<Action>, s': State)
    requires acts != [] && Allowed(r, s, acts[0]) && Leads(r, Do(s, acts[0]), acts[1..], s')
    ensures Leads(r, s, acts, s')
  {
    HeadTail(acts);
    LeadsCons(r, s, acts[0], acts[1..], s');
  }

  lemma LeadsOne(r: Rules, s: State, a: Action)
    requires Allowed(r, s, a)
    ensures Leads(r, s, [a], Do(s, a))
  {
    assert Trace(r, [a], [s, Do(s, a)]);
  }

  lemma TraceTail(r: Rules, acts: seq<Action>, states: seq<State>)
    requires Trace(r, acts, states) && acts != []
    ensures Trace(r, acts[1..], states[1..])
  {
  }

  lemma LeadsFirst(r: Rules, s: State, acts: seq<Action>, s': State)
    requires Leads(r, s, acts, s') && acts != []
    ensures Allowed(r, s, acts[0]) && Leads(r, Do(s, acts[0]), acts[1..], s')
  {
    var states :| Trace(r, acts, states) && states[0] == s && states[|acts|] == s';
    assert TraceStep(r, states[0], acts[0], states[1]);
    TraceTail(r, acts, states);
  }

  lemma {:induction false} LeadsRuns(r: Rules, s: State, acts: seq<Action>, s': State)
    requires Leads(r, s, acts, s')
    ensures Run(r, s, acts) && After(r, s, acts) == s'
    decreases |acts|
  {
    if acts != [] {
      LeadsFirst(r, s, acts, s');
      LeadsRuns(r, Do(s, acts[0]), acts[1..], s');
    }
  }

  lemma {:induction false} RunLeads(r: Rules, s: State, acts: seq<Action>)
    requires Run(r, s, acts)
    ensures Leads(r, s, acts, After(r, s, acts))
    decreases |acts|
  {
    if acts == [] {
      LeadsNowhere(r, s);
    } else {
      RunLeads(r, Do(s, acts[0]), acts[1..]);
      LeadsStep(r, s, acts, After(r, s, acts));
    }
  }

  /** `Leads` says the same as `Run` and `After`. */
  lemma LeadsIsRun(r: Rules, s: State, acts: seq<Action>, s': State)
    ensures Leads(r, s, acts, s') <==> Run(r, s, acts) && After(r, s, acts) == s'
  {
    if Leads(r, s, acts, s') { LeadsRuns(r, s, acts, s'); }
    if Run(r, s, acts) { RunLeads(r, s, acts); }
  }

  lemma LeadsConcat(r: Rules, s: State, a: seq<Action>, mid: State, b: seq<Action>, s': State)
    requires Leads(r, s, a, mid) && Leads(r, mid, b, s')
    ensures Leads(r, s, a + b, s')
  {
    LeadsIsRun(r, s, a, mid);
    LeadsIsRun(r, mid, b, s');
    RunConcat(r, s, a, b);
    LeadsIsRun(r, s, a + b, s');
  }
}
