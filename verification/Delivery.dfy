/** Offsets and deliveries: what the acked-start rule keeps, and how calls relate to claims. */
module Delivery {
  import opened Engine
  import opened Completions
  import opened Pipeline
  import opened Invariants
  import H = Handler

  // ---------------------------------------------------------------- offsets

  /** Everything below offset `n` of the slot is acked. */
  ghost predicate SlotAcked(k: Acks, log: map<nat, seq<Record>>, slot: Slot, n: nat) {
    AckedBelow(k, slot.consumer, Log(log, slot.part), n)
  }

  ghost predicate StartsOk(k: Acks, log: map<nat, seq<Record>>, workers: map<nat, Worker>, slot: Slot) {
    forall w :: w in workers && SlotOf(workers[w]) == slot ==> SlotAcked(k, log, slot, workers[w].start)
  }

  ghost predicate OffsetOk(k: Acks, log: map<nat, seq<Record>>, committed: map<Slot, nat>, slot: Slot) {
    SlotAcked(k, log, slot, Committed(committed, slot))
  }

  lemma SlotAckedStays(s: State, a: Action, slot: Slot, n: nat)
    requires Enabled(s, a) && SlotAcked(AcksOf(s), s.log, slot, n)
    ensures SlotAcked(Acks(NextTable(s, a), NextRejected(s, a)), NextLog(s, a), slot, n)
  {
    AcksStep(s, a);
    LogStep(s, a);
    assert Log(s.log, slot.part) <= Log(NextLog(s, a), slot.part);
    AckedBelowStays(AcksOf(s), Acks(NextTable(s, a), NextRejected(s, a)), slot.consumer, Log(s.log, slot.part),
                    Log(NextLog(s, a), slot.part), n);
  }

  lemma StartsOkStep(s: State, a: Action, slot: Slot)
    requires StartsOk(AcksOf(s), s.log, s.workers, slot) && Enabled(s, a)
    requires a.Poll? && Slot(a.consumer, a.part) == slot ==>
               a.start <= Frontier(AcksOf(s), slot.consumer, Log(s.log, slot.part))
    ensures StartsOk(Acks(NextTable(s, a), NextRejected(s, a)), NextLog(s, a), NextWorkers(s, a), slot)
  {
    forall w | w in NextWorkers(s, a) && SlotOf(NextWorkers(s, a)[w]) == slot
      ensures SlotAcked(Acks(NextTable(s, a), NextRejected(s, a)), NextLog(s, a), slot, NextWorkers(s, a)[w].start)
    {
      var wk := NextWorkers(s, a)[w];
      if a.Poll? && a.w == w {
        FrontierIsLongest(AcksOf(s), slot.consumer, Log(s.log, slot.part), wk.start);
      } else {
        assert SlotOf(s.workers[w]) == slot && wk.start == s.workers[w].start;
      }
      SlotAckedStays(s, a, slot, wk.start);
    }
  }

  /** Everything below the position a worker has reached is acked. */
  lemma ReachedAcked(s: State, wk: Worker)
    requires BatchOk(s.log, wk) && ProgressOk(AcksOf(s), wk)
    requires AckedBelow(AcksOf(s), wk.consumer, Log(s.log, wk.part), wk.start)
    ensures AckedBelow(AcksOf(s), wk.consumer, Log(s.log, wk.part), wk.start + wk.pos)
  {
    var records := Log(s.log, wk.part);
    forall o | wk.start <= o < wk.start + wk.pos
      ensures Acked(AcksOf(s), wk.consumer, records[o])
    {
      assert records[o] == wk.batch[o - wk.start];
    }
  }

  /** A worker that holds a grant holds it for a readable record of the log. */
  lemma GrantedReadable(s: State, wk: Worker)
    requires BatchOk(s.log, wk) && ProgressOk(AcksOf(s), wk) && wk.pc.Granted?
    ensures wk.start + wk.pos < |Log(s.log, wk.part)|
    ensures Handleable(Log(s.log, wk.part)[wk.start + wk.pos].value)
  {
    assert Log(s.log, wk.part)[wk.start + wk.pos] == wk.batch[wk.pos];
  }

  /** A grant is held for a readable record, everything below which is acked. */
  lemma GrantedWaits(s: State, w: nat)
    requires BatchesOk(s.log, s.workers) && AllProgressOk(AcksOf(s), s.workers)
    requires w in s.workers && s.workers[w].pc.Granted? && StartsOk(AcksOf(s), s.log, s.workers, SlotOf(s.workers[w]))
    ensures var wk := s.workers[w]; var records, o := Log(s.log, wk.part), wk.start + wk.pos;
            AckedBelow(AcksOf(s), wk.consumer, records, o) && o < |records| && Handleable(records[o].value)
  {
    var wk := s.workers[w];
    assert BatchOk(s.log, wk) && ProgressOk(AcksOf(s), wk);
    ReachedAcked(s, wk);
    GrantedReadable(s, wk);
  }

  /** Exactly which commits are safe: with its prefix handled, a batch's commit stays at or below the
      frontier if and only if the batch started there. */
  lemma CommitSafeIffStartAcked(s: State, wk: Worker)
    requires BatchOk(s.log, wk) && ProgressOk(AcksOf(s), wk)
    ensures var frontier := Frontier(AcksOf(s), wk.consumer, Log(s.log, wk.part));
            wk.start + wk.pos <= frontier <==> wk.start <= frontier
  {
    var records := Log(s.log, wk.part);
    FrontierIsLongest(AcksOf(s), wk.consumer, records, wk.start);
    FrontierIsLongest(AcksOf(s), wk.consumer, records, wk.start + wk.pos);
    if AckedBelow(AcksOf(s), wk.consumer, records, wk.start) {
      ReachedAcked(s, wk);
    }
  }

  lemma OffsetOkStep(s: State, a: Action, slot: Slot)
    requires OffsetOk(AcksOf(s), s.log, s.committed, slot) && StartsOk(AcksOf(s), s.log, s.workers, slot)
    requires BatchesOk(s.log, s.workers) && AllProgressOk(AcksOf(s), s.workers) && Enabled(s, a)
    ensures OffsetOk(Acks(NextTable(s, a), NextRejected(s, a)), NextLog(s, a), NextCommitted(s, a), slot)
  {
    if a.CommitOffset? && slot == SlotOf(s.workers[a.w]) {
      ReachedAcked(s, s.workers[a.w]);
    }
    SlotAckedStays(s, a, slot, Committed(NextCommitted(s, a), slot));
  }

  // ---------------------------------------------------------------- claims and calls

  predicate SameClaim(c: Call, d: Call) {
    c.key == d.key && c.attempt == d.attempt
  }

  ghost predicate Counted(table: Table, key: Key, attempt: nat) {
    key in table && 1 <= attempt <= table[key].attempts
  }

  ghost predicate CallsDistinct(calls: seq<Call>) {
    forall i, j :: 0 <= i < j < |calls| ==> !SameClaim(calls[i], calls[j])
  }

  ghost predicate CallsCounted(table: Table, calls: seq<Call>) {
    forall i :: 0 <= i < |calls| ==> Counted(table, calls[i].key, calls[i].attempt)
  }

  /** A worker holding a granted claim that it has not used yet. */
  ghost predicate HoldsGrant(wk: Worker, key: Key, attempt: nat) {
    wk.pc.Granted? && wk.pos < |wk.batch| && KeyOf(wk) == key && wk.pc.claim.attempts == attempt
  }

  ghost predicate GrantsCounted(table: Table, workers: map<nat, Worker>) {
    forall w, key, n :: w in workers && HoldsGrant(workers[w], key, n) ==> Counted(table, key, n)
  }

  ghost predicate GrantsUnused(calls: seq<Call>, workers: map<nat, Worker>) {
    forall w, key, n, i :: w in workers && HoldsGrant(workers[w], key, n) && 0 <= i < |calls| ==>
      !(calls[i].key == key && calls[i].attempt == n)
  }

  ghost predicate GrantsApart(workers: map<nat, Worker>) {
    forall w, w', key, n :: w in workers && w' in workers && w != w' && HoldsGrant(workers[w], key, n) ==>
      !HoldsGrant(workers[w'], key, n)
  }

  ghost predicate GrantsFresh(table: Table, calls: seq<Call>, workers: map<nat, Worker>) {
    GrantsCounted(table, workers) && GrantsUnused(calls, workers) && GrantsApart(workers)
  }

  /** A claim is granted by a statement that raised the count: its number is new, and the largest. */
  lemma GrantIsNew(s: State, w: nat, c: H.Choice, key: Key, n: nat)
    requires Enabled(s, Handle(w, c)) && BatchesOk(s.log, s.workers)
    requires var wk' := NextWorkers(s, Handle(w, c))[w]; HoldsGrant(wk', key, n)
    ensures Counted(NextTable(s, Handle(w, c)), key, n)
    ensures key in s.table ==> n == s.table[key].attempts + 1
  {
  }

  lemma CountedStays(s: State, a: Action, key: Key, n: nat)
    requires Enabled(s, a) && Counted(s.table, key, n)
    ensures Counted(NextTable(s, a), key, n)
  {
    AcksStep(s, a);
  }

  lemma CallsOkStep(s: State, a: Action)
    requires CallsDistinct(s.hist.calls) && CallsCounted(s.table, s.hist.calls)
    requires GrantsFresh(s.table, s.hist.calls, s.workers) && Enabled(s, a)
    ensures CallsDistinct(NextCalls(s, a)) && CallsCounted(NextTable(s, a), NextCalls(s, a))
  {
    if a.Handle? && s.workers[a.w].pc.Granted? {
      var wk := s.workers[a.w];
      assert HoldsGrant(wk, KeyOf(wk), wk.pc.claim.attempts);
    }
    forall i | 0 <= i < |NextCalls(s, a)|
      ensures Counted(NextTable(s, a), NextCalls(s, a)[i].key, NextCalls(s, a)[i].attempt)
    {
      CountedStays(s, a, NextCalls(s, a)[i].key, NextCalls(s, a)[i].attempt);
    }
  }

  /** Worker `w` holding a grant after the step either held it before, or was granted it just now. */
  lemma GrantOrigin(s: State, a: Action, w: nat, key: Key, n: nat)
    requires Enabled(s, a) && BatchesOk(s.log, s.workers)
    requires w in NextWorkers(s, a) && HoldsGrant(NextWorkers(s, a)[w], key, n)
    ensures (w in s.workers && HoldsGrant(s.workers[w], key, n) && !(a.Handle? && a.w == w)) ||
            (a.Handle? && a.w == w && (key in s.table ==> n == s.table[key].attempts + 1))
    ensures a.Handle? && a.w == w ==> Counted(NextTable(s, a), key, n) && NextCalls(s, a) == s.hist.calls
  {
    if a.Handle? && a.w == w {
      GrantIsNew(s, w, a.choice, key, n);
    }
  }

  lemma GrantStaysFresh(s: State, a: Action, w: nat, key: Key, n: nat)
    requires CallsCounted(s.table, s.hist.calls) && BatchesOk(s.log, s.workers)
    requires GrantsFresh(s.table, s.hist.calls, s.workers) && Enabled(s, a)
    requires w in NextWorkers(s, a) && HoldsGrant(NextWorkers(s, a)[w], key, n)
    ensures Counted(NextTable(s, a), key, n)
    ensures var calls' := NextCalls(s, a);
            forall i :: 0 <= i < |calls'| ==> !(calls'[i].key == key && calls'[i].attempt == n)
  {
    GrantOrigin(s, a, w, key, n);
    if !(a.Handle? && a.w == w) {
      CountedStays(s, a, key, n);
      if a.Handle? && s.workers[a.w].pc.Granted? {
        var wk := s.workers[a.w];
        assert HoldsGrant(wk, KeyOf(wk), wk.pc.claim.attempts);
      }
    }
  }

  lemma NewNumberUnheld(s: State, w: nat, key: Key, n: nat)
    requires GrantsFresh(s.table, s.hist.calls, s.workers) && w in s.workers
    requires key in s.table ==> n == s.table[key].attempts + 1
    ensures !HoldsGrant(s.workers[w], key, n)
  {
    assert HoldsGrant(s.workers[w], key, n) ==> Counted(s.table, key, n);
  }

  lemma GrantsStayApart(s: State, a: Action, w: nat, w': nat, key: Key, n: nat)
    requires BatchesOk(s.log, s.workers) && GrantsFresh(s.table, s.hist.calls, s.workers) && Enabled(s, a)
    requires w in NextWorkers(s, a) && w' in NextWorkers(s, a) && w != w'
    requires HoldsGrant(NextWorkers(s, a)[w], key, n)
    ensures !HoldsGrant(NextWorkers(s, a)[w'], key, n)
  {
    GrantOrigin(s, a, w, key, n);
    if a.Handle? && a.w == w {
      if w' in s.workers {
        NewNumberUnheld(s, w', key, n);
      }
    } else if a.Handle? && a.w == w' {
      if HoldsGrant(NextWorkers(s, a)[w'], key, n) {
        GrantOrigin(s, a, w', key, n);
        NewNumberUnheld(s, w, key, n);
      }
    } else if w' in s.workers {
      assert !HoldsGrant(s.workers[w'], key, n);
    }
  }

  lemma GrantsApartStep(s: State, a: Action)
    requires BatchesOk(s.log, s.workers) && GrantsFresh(s.table, s.hist.calls, s.workers) && Enabled(s, a)
    ensures GrantsApart(NextWorkers(s, a))
  {
    var workers' := NextWorkers(s, a);
    forall w, w', key, n | w in workers' && w' in workers' && w != w' && HoldsGrant(workers'[w], key, n)
      ensures !HoldsGrant(workers'[w'], key, n)
    {
      GrantsStayApart(s, a, w, w', key, n);
    }
  }

  lemma GrantsFreshStep(s: State, a: Action)
    requires CallsCounted(s.table, s.hist.calls) && BatchesOk(s.log, s.workers)
    requires GrantsFresh(s.table, s.hist.calls, s.workers) && Enabled(s, a)
    ensures GrantsFresh(NextTable(s, a), NextCalls(s, a), NextWorkers(s, a))
  {
    var workers', calls' := NextWorkers(s, a), NextCalls(s, a);
    forall w, key, n | w in workers' && HoldsGrant(workers'[w], key, n)
      ensures Counted(NextTable(s, a), key, n)
      ensures forall i :: 0 <= i < |calls'| ==> !(calls'[i].key == key && calls'[i].attempt == n)
    {
      GrantStaysFresh(s, a, w, key, n);
    }
    GrantsApartStep(s, a);
  }

  // ---------------------------------------------------------------- counting calls

  /** The number of DeliverJob calls made for a completion row. */
  function CallsFor(calls: seq<Call>, key: Key): nat {
    if calls == [] then 0 else
    CallsFor(calls[..|calls| - 1], key) + (if calls[|calls| - 1].key == key then 1 else 0)
  }

  function Attempts(calls: seq<Call>, key: Key): set<nat> {
    set i | 0 <= i < |calls| && calls[i].key == key :: calls[i].attempt
  }

  lemma {:induction false} CallsAreAttempts(calls: seq<Call>, key: Key)
    requires CallsDistinct(calls)
    ensures CallsFor(calls, key) == |Attempts(calls, key)|
  {
    if calls != [] {
      var before, c := calls[..|calls| - 1], calls[|calls| - 1];
      CallsAreAttempts(before, key);
      assert forall i :: 0 <= i < |before| ==> calls[i] == before[i];
      if c.key == key {
        assert Attempts(calls, key) == Attempts(before, key) + {c.attempt};
        assert c.attempt !in Attempts(before, key);
      } else {
        assert Attempts(calls, key) == Attempts(before, key);
      }
    }
  }

  lemma {:induction false} SmallSet(numbers: set<nat>, n: nat)
    requires forall i :: i in numbers ==> 1 <= i <= n
    ensures |numbers| <= n
  {
    if n == 0 {
      assert numbers == {};
    } else {
      SmallSet(numbers - {n}, n - 1);
    }
  }

  lemma CallsWithinAttempts(table: Table, calls: seq<Call>, key: Key)
    requires CallsDistinct(calls) && CallsCounted(table, calls)
    ensures CallsFor(calls, key) <= if key in table then table[key].attempts else 0
  {
    CallsAreAttempts(calls, key);
    SmallSet(Attempts(calls, key), if key in table then table[key].attempts else 0);
  }

  // ---------------------------------------------------------------- calls and offsets

  predicate InSlot(c: Call, slot: Slot) {
    c.key.consumer == slot.consumer && c.part == slot.part
  }

  /** The call was made for a readable record, with every record below it acked. */
  ghost predicate CallInOrder(k: Acks, log: map<nat, seq<Record>>, c: Call) {
    && AckedBelow(k, c.key.consumer, Log(log, c.part), c.offset)
    && c.offset < |Log(log, c.part)|
    && Handleable(Log(log, c.part)[c.offset].value)
    && KeyFor(Log(log, c.part)[c.offset], c.key.consumer) == c.key
  }

  ghost predicate CallsInOrder(k: Acks, log: map<nat, seq<Record>>, calls: seq<Call>, slot: Slot) {
    forall i :: 0 <= i < |calls| && InSlot(calls[i], slot) ==> CallInOrder(k, log, calls[i])
  }

  lemma CallStaysInOrder(s: State, a: Action, c: Call)
    requires CallInOrder(AcksOf(s), s.log, c) && Enabled(s, a)
    ensures CallInOrder(Acks(NextTable(s, a), NextRejected(s, a)), NextLog(s, a), c)
  {
    LogStep(s, a);
    assert Log(s.log, c.part) <= Log(NextLog(s, a), c.part);
    SlotAckedStays(s, a, Slot(c.key.consumer, c.part), c.offset);
  }

  lemma NewCallInOrder(s: State, a: Action, slot: Slot)
    requires StartsOk(AcksOf(s), s.log, s.workers, slot) && Enabled(s, a) && |NextCalls(s, a)| == |s.hist.calls| + 1
    requires BatchesOk(s.log, s.workers) && AllProgressOk(AcksOf(s), s.workers)
    requires InSlot(NextCalls(s, a)[|s.hist.calls|], slot)
    ensures CallInOrder(AcksOf(s), s.log, NextCalls(s, a)[|s.hist.calls|])
  {
    assert SlotOf(s.workers[a.w]) == slot;
    ReachedAcked(s, s.workers[a.w]);
  }

  lemma CallsInOrderStep(s: State, a: Action, slot: Slot)
    requires CallsInOrder(AcksOf(s), s.log, s.hist.calls, slot) && StartsOk(AcksOf(s), s.log, s.workers, slot)
    requires BatchesOk(s.log, s.workers) && AllProgressOk(AcksOf(s), s.workers) && Enabled(s, a)
    ensures CallsInOrder(Acks(NextTable(s, a), NextRejected(s, a)), NextLog(s, a), NextCalls(s, a), slot)
  {
    forall i | 0 <= i < |NextCalls(s, a)| && InSlot(NextCalls(s, a)[i], slot)
      ensures CallInOrder(Acks(NextTable(s, a), NextRejected(s, a)), NextLog(s, a), NextCalls(s, a)[i])
    {
      if i == |s.hist.calls| {
        NewCallInOrder(s, a, slot);
      }
      CallStaysInOrder(s, a, NextCalls(s, a)[i]);
    }
  }

  /** Nothing is committed past an unreadable record, and nothing is delivered from it on. */
  lemma UnreadableBlocks(k: Acks, log: map<nat, seq<Record>>, committed: map<Slot, nat>, calls: seq<Call>, slot: Slot,
                         o: nat)
    requires OffsetOk(k, log, committed, slot) && CallsInOrder(k, log, calls, slot)
    requires o < |Log(log, slot.part)| && !Handleable(Log(log, slot.part)[o].value)
    ensures Committed(committed, slot) <= o
    ensures forall i :: 0 <= i < |calls| && InSlot(calls[i], slot) ==> calls[i].offset < o
  {
    forall i | 0 <= i < |calls| && InSlot(calls[i], slot)
      ensures calls[i].offset < o
    {
      assert CallInOrder(k, log, calls[i]);
    }
  }
}
