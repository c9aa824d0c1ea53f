/** The poll loop within one session: the client never rewinds, it goes on where its last batch ended. When that
    keeps the rule on batch starts, and when it does not. */
module Sessions {
  import opened Engine
  import opened Sequences
  import opened Pipeline
  import opened Invariants
  import opened Delivery
  import opened Runs

  // ---------------------------------------------------------------- one batch

  lemma AcksGrowOn(k: Acks, k1: Acks, k2: Acks)
    requires AcksGrow(k, k1) && AcksGrow(k1, k2)
    ensures AcksGrow(k, k2)
  {
  }

  lemma {:induction false} StillAcked(r: Rules, s: State, acts: seq<Action>)
    requires Run(r, s, acts)
    ensures var s' := After(r, s, acts); AcksGrow(AcksOf(s), AcksOf(s')) && LogGrows(s.log, s'.log)
    decreases |acts|
  {
    if acts != [] {
      var s1 := Do(s, acts[0]);
      AcksStep(s, acts[0]);
      LogStep(s, acts[0]);
      StillAcked(r, s1, acts[1..]);
      AcksGrowOn(AcksOf(s), AcksOf(s1), AcksOf(After(r, s, acts)));
      forall p
        ensures Log(s.log, p) <= Log(After(r, s, acts).log, p)
      {
        assert Log(s.log, p) <= Log(s1.log, p) <= Log(After(r, s, acts).log, p);
      }
    }
  }

  /** The records from `from` up to `to` are acked. */
  ghost predicate AckedBetween(k: Acks, log: map<nat, seq<Record>>, slot: Slot, from: nat, to: nat) {
    from < to ==>
      to <= |Log(log, slot.part)| && forall o :: from <= o < to ==> Acked(k, slot.consumer, Log(log, slot.part)[o])
  }

  lemma FrontierReaches(k: Acks, log: map<nat, seq<Record>>, slot: Slot, from: nat, to: nat)
    requires SlotAcked(k, log, slot, from)
    ensures to <= Frontier(k, slot.consumer, Log(log, slot.part)) <==> AckedBetween(k, log, slot, from, to)
  {
    FrontierIsLongest(k, slot.consumer, Log(log, slot.part), to);
  }

  lemma RestOfBatch(s: State, s': State, wk: Worker)
    requires BatchOk(s.log, wk) && ProgressOk(AcksOf(s), wk)
    requires AckedBelow(AcksOf(s), wk.consumer, Log(s.log, wk.part), wk.start)
    requires AcksGrow(AcksOf(s), AcksOf(s')) && LogGrows(s.log, s'.log)
    ensures wk.start + |wk.batch| <= Frontier(AcksOf(s'), wk.consumer, Log(s'.log, wk.part)) <==>
            forall i :: wk.pos <= i < |wk.batch| ==> Acked(AcksOf(s'), wk.consumer, wk.batch[i])
  {
    var k', records, from, to := AcksOf(s'), Log(s'.log, wk.part), wk.start + wk.pos, wk.start + |wk.batch|;
    assert Log(s.log, wk.part) <= records;
    ReachedAcked(s, wk);
    AckedBelowStays(AcksOf(s), k', wk.consumer, Log(s.log, wk.part), records, from);
    FrontierReaches(k', s'.log, SlotOf(wk), from, to);
    assert forall i :: 0 <= i < |wk.batch| ==> wk.batch[i] == records[wk.start + i];
    if forall i :: wk.pos <= i < |wk.batch| ==> Acked(k', wk.consumer, wk.batch[i]) {
      forall o | from <= o < to
        ensures Acked(k', wk.consumer, records[o])
      {
        assert records[o] == wk.batch[o - wk.start];
      }
    }
    if AckedBetween(k', s'.log, SlotOf(wk), from, to) {
      forall i | wk.pos <= i < |wk.batch|
        ensures Acked(k', wk.consumer, wk.batch[i])
      {
        assert Acked(k', wk.consumer, records[wk.start + i]);
      }
    }
  }

  /** When the loop may go on with the batch behind the one it has handled, whatever has been fetched before,
      here or elsewhere, and whatever happens in the meantime: if and only if all that was left of the batch,
      from the record that returned false on, has been acked by then. */
  lemma NextBatchSafeIff(r: Rules, r': Rules, part: string -> nat, acts: seq<Action>, w: nat, more: seq<Action>)
    requires Run(r, Init(part), acts)
    requires var s := After(r, Init(part), acts);
             && w in s.workers && s.workers[w].pc.Done? && Run(r', s, more)
             && var wk := s.workers[w];
                wk.start <= Frontier(AcksOf(s), wk.consumer, Log(s.log, wk.part))
    ensures var s := After(r, Init(part), acts); var wk, s' := s.workers[w], After(r', s, more);
            wk.start + |wk.batch| <= Frontier(AcksOf(s'), wk.consumer, Log(s'.log, wk.part)) <==>
            forall i :: wk.pos <= i < |wk.batch| ==> Acked(AcksOf(s'), wk.consumer, wk.batch[i])
  {
    var s := After(r, Init(part), acts);
    Reached(r, part, acts);
    StillAcked(r', s, more);
    var wk := s.workers[w];
    FrontierIsLongest(AcksOf(s), wk.consumer, Log(s.log, wk.part), wk.start);
    RestOfBatch(s, After(r', s, more), wk);
  }

  // ---------------------------------------------------------------- a whole session

  predicate Fetches(a: Action, slot: Slot) {
    a.Poll? && Slot(a.consumer, a.part) == slot
  }

  /** Every fetch from the slot starts where the one before it ended, whatever became of that batch; the
      first starts at `next`. */
  predicate GoesOn(acts: seq<Action>, slot: Slot, next: nat)
    decreases |acts|
  {
    acts == [] ||
    if Fetches(acts[0], slot) then acts[0].start == next && GoesOn(acts[1..], slot, next + acts[0].count)
    else GoesOn(acts[1..], slot, next)
  }

  /** Where the next fetch from the slot then starts. */
  function Position(acts: seq<Action>, slot: Slot, next: nat): nat
    decreases |acts|
  {
    if acts == [] then next else
    Position(acts[1..], slot, if Fetches(acts[0], slot) then next + acts[0].count else next)
  }

  /** The client never rewinds: it reads every slot from the beginning on, batch after batch. */
  ghost predicate NeverRewinds(acts: seq<Action>) {
    forall slot :: GoesOn(acts, slot, 0)
  }

  lemma {:induction false} GoesOnConcat(a: seq<Action>, b: seq<Action>, slot: Slot, next: nat)
    requires GoesOn(a, slot, next) && GoesOn(b, slot, Position(a, slot, next))
    ensures GoesOn(a + b, slot, next) && Position(a + b, slot, next) == Position(b, slot, Position(a, slot, next))
    decreases |a|
  {
    if a == [] {
      EmptyFirst(b);
    } else {
      ConsAppend(a, b);
      GoesOnConcat(a[1..], b, slot, if Fetches(a[0], slot) then next + a[0].count else next);
    }
  }

  /** The position `n` in one slot, with nothing read from any other. */
  function In(slot: Slot, n: nat, any: Slot): nat {
    if any == slot then n else 0
  }

  ghost predicate ReadsTo(acts: seq<Action>, any: Slot, from: nat, to: nat) {
    GoesOn(acts, any, from) && Position(acts, any, from) == to
  }

  /** The run fetches from no slot but this one, and from this one it reads on from `from` up to `to`. */
  ghost predicate ReadsOn(acts: seq<Action>, slot: Slot, from: nat, to: nat) {
    forall any: Slot :: ReadsTo(acts, any, In(slot, from, any), In(slot, to, any))
  }

  lemma ReadsOnConcat(a: seq<Action>, b: seq<Action>, slot: Slot, from: nat, mid: nat, to: nat)
    requires ReadsOn(a, slot, from, mid) && ReadsOn(b, slot, mid, to)
    ensures ReadsOn(a + b, slot, from, to)
  {
    forall any: Slot
      ensures ReadsTo(a + b, any, In(slot, from, any), In(slot, to, any))
    {
      assert ReadsTo(a, any, In(slot, from, any), In(slot, mid, any));
      assert ReadsTo(b, any, In(slot, mid, any), In(slot, to, any));
      GoesOnConcat(a, b, any, In(slot, from, any));
    }
  }

  predicate NoPolls(acts: seq<Action>) {
    forall i :: 0 <= i < |acts| ==> !acts[i].Poll?
  }

  lemma {:induction false} NoPollsStay(acts: seq<Action>, any: Slot, next: nat)
    requires NoPolls(acts)
    ensures ReadsTo(acts, any, next, next)
    decreases |acts|
  {
    if acts != [] {
      NoPollsStay(acts[1..], any, next);
    }
  }

  lemma NoPollsReadOn(acts: seq<Action>, slot: Slot, next: nat)
    requires NoPolls(acts)
    ensures ReadsOn(acts, slot, next, next)
  {
    forall any: Slot
      ensures ReadsTo(acts, any, In(slot, next, any), In(slot, next, any))
    {
      NoPollsStay(acts, any, In(slot, next, any));
    }
  }

  lemma FetchReadsOn(a: Action, rest: seq<Action>, slot: Slot)
    requires Fetches(a, slot) && NoPolls(rest)
    ensures ReadsOn([a] + rest, slot, a.start, a.start + a.count)
  {
    NoPollsReadOn(rest, slot, a.start + a.count);
    forall any: Slot
      ensures ReadsTo([a], any, In(slot, a.start, any), In(slot, a.start + a.count, any))
    {
      assert [a][1..] == [];
    }
    ReadsOnConcat([a], rest, slot, a.start, a.start + a.count, a.start + a.count);
  }

  lemma ReadsOnNeverRewinds(acts: seq<Action>, slot: Slot, to: nat)
    requires ReadsOn(acts, slot, 0, to)
    ensures NeverRewinds(acts)
  {
    forall any: Slot
      ensures GoesOn(acts, any, 0)
    {
      assert ReadsTo(acts, any, In(slot, 0, any), In(slot, to, any));
    }
  }

  /** What is left of the slot's last batch: the records from `from` up to `to` have not been handled. */
  datatype Rest = Rest(from: nat, to: nat)

  function TakeOff(wk: Worker, slot: Slot, rest: Rest): Rest {
    if SlotOf(wk) == slot && wk.start == rest.from then rest.(from := wk.start + wk.pos) else rest
  }

  /** A fetch leaves its whole batch; the end of a worker, by a commit or a crash, takes off what it handled. */
  function NextRest(s: State, a: Action, slot: Slot, rest: Rest): Rest
    requires Enabled(s, a)
  {
    match a
    case Poll(_, consumer, p, start, count) =>
      if Slot(consumer, p) == slot then Rest(start, start + count) else rest
    case CommitOffset(w, _) => TakeOff(s.workers[w], slot, rest)
    case WorkerStops(w) => TakeOff(s.workers[w], slot, rest)
    case _ => rest
  }

  /** At each fetch from the slot, what was left of its last batch has been acked. */
  ghost predicate RestsAcked(s: State, acts: seq<Action>, slot: Slot, rest: Rest)
    decreases |acts|
  {
    acts == [] ||
    var a := acts[0];
    && Enabled(s, a)
    && (Fetches(a, slot) ==> AckedBetween(AcksOf(s), s.log, slot, rest.from, rest.to))
    && RestsAcked(Do(s, a), acts[1..], slot, NextRest(s, a, slot, rest))
  }

  function OnlySlot(slot: Slot): Slot -> bool {
    x => x == slot
  }

  lemma RestStep(s: State, a: Action, slot: Slot, rest: Rest)
    requires WorkerInv(s) && Enabled(s, a) && SlotAcked(AcksOf(s), s.log, slot, rest.from)
    requires Fetches(a, slot) ==> SlotAcked(AcksOf(s), s.log, slot, a.start)
    ensures var s' := Do(s, a); SlotAcked(AcksOf(s'), s'.log, slot, NextRest(s, a, slot, rest).from)
  {
    if (a.CommitOffset? || a.WorkerStops?) && SlotOf(s.workers[a.w]) == slot && s.workers[a.w].start == rest.from {
      ReachedAcked(s, s.workers[a.w]);
    }
    SlotAckedStays(s, a, slot, NextRest(s, a, slot, rest).from);
  }

  /** One action of a session keeps the rule if and only if it does not fetch, or finds the rest acked. */
  lemma FetchAllowedIff(r: Rules, s: State, a: Action, slot: Slot, rest: Rest)
    requires Allowed(r, s, a) && SlotAcked(AcksOf(s), s.log, slot, rest.from)
    requires Fetches(a, slot) ==> a.start == rest.to
    ensures Allowed(r.(ackedStarts := OnlySlot(slot)), s, a) <==>
            (Fetches(a, slot) ==> AckedBetween(AcksOf(s), s.log, slot, rest.from, rest.to))
    ensures Fetches(a, slot) && Allowed(r.(ackedStarts := OnlySlot(slot)), s, a) ==>
              SlotAcked(AcksOf(s), s.log, slot, a.start)
  {
    if Fetches(a, slot) {
      FrontierReaches(AcksOf(s), s.log, slot, rest.from, rest.to);
      FrontierIsLongest(AcksOf(s), slot.consumer, Log(s.log, slot.part), a.start);
    }
  }

  lemma RestGoesOn(s: State, acts: seq<Action>, slot: Slot, rest: Rest)
    requires acts != [] && Enabled(s, acts[0]) && GoesOn(acts, slot, rest.to)
    ensures Fetches(acts[0], slot) ==> acts[0].start == rest.to
    ensures GoesOn(acts[1..], slot, NextRest(s, acts[0], slot, rest).to)
  {
  }

  lemma {:induction false} SessionKeepsRuleIff(r: Rules, s: State, acts: seq<Action>, slot: Slot, rest: Rest)
    requires WorkerInv(s) && Run(r, s, acts) && GoesOn(acts, slot, rest.to)
    requires SlotAcked(AcksOf(s), s.log, slot, rest.from)
    ensures Run(r.(ackedStarts := OnlySlot(slot)), s, acts) <==> RestsAcked(s, acts, slot, rest)
    decreases |acts|
  {
    if acts != [] {
      var a := acts[0];
      RestGoesOn(s, acts, slot, rest);
      FetchAllowedIff(r, s, a, slot, rest);
      if Allowed(r.(ackedStarts := OnlySlot(slot)), s, a) {
        WorkerInvStep(s, a);
        RestStep(s, a, slot, rest);
        SessionKeepsRuleIff(r, Do(s, a), acts[1..], slot, NextRest(s, a, slot, rest));
      }
    }
  }

  /** A session that never rewinds keeps the rule on batch starts in a slot, and with it the guarantees that
      ask for it there, if and only if at each fetch from the slot all that was left of its last batch has been
      acked since. */
  lemma SessionSafeIff(r: Rules, part: string -> nat, acts: seq<Action>, slot: Slot)
    requires Run(r, Init(part), acts) && NeverRewinds(acts)
    ensures Run(r.(ackedStarts := OnlySlot(slot)), Init(part), acts) <==>
            RestsAcked(Init(part), acts, slot, Rest(0, 0))
  {
    InitInv(r, part);
    SessionKeepsRuleIff(r, Init(part), acts, slot, Rest(0, 0));
  }
}
