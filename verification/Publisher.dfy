/** The publisher process: select, produce, mark (cmd/publisher/main.go, cmd/publisher/produce.go). */
module Publisher {
  import opened Engine
  import opened Store
  import opened Broker
  import Pipeline
  import Ledger

  /** What other processes do to the outbox and the topic during an iteration: an accept commits its row,
      another publisher marks one, or somebody appends a record. */
  datatype Other = Accepted(row: Ledger.OutboxRow) | Marked(event: string) | Appended(p: nat, record: Record)

  function OtherOutbox(outbox: seq<Ledger.OutboxRow>, o: Other): seq<Ledger.OutboxRow> {
    match o
    case Accepted(row) => outbox + [row]
    case Marked(event) => Ledger.MarkPublished(outbox, event)
    case Appended(_, _) => outbox
  }

  function OtherLog(log: map<nat, seq<Record>>, o: Other): map<nat, seq<Record>> {
    if o.Appended? then Pipeline.Append(log, o.p, o.record) else log
  }

  function OthersOutbox(outbox: seq<Ledger.OutboxRow>, os: seq<Other>): seq<Ledger.OutboxRow> {
    if os == [] then outbox else OtherOutbox(OthersOutbox(outbox, os[..|os| - 1]), os[|os| - 1])
  }

  function OthersLog(log: map<nat, seq<Record>>, os: seq<Other>): map<nat, seq<Record>> {
    if os == [] then log else OtherLog(OthersLog(log, os[..|os| - 1]), os[|os| - 1])
  }

  lemma {:induction false} OthersConcat(outbox: seq<Ledger.OutboxRow>, log: map<nat, seq<Record>>, a: seq<Other>,
                                        b: seq<Other>)
    ensures OthersOutbox(outbox, a + b) == OthersOutbox(OthersOutbox(outbox, a), b)
    ensures OthersLog(log, a + b) == OthersLog(OthersLog(log, a), b)
  {
    if b == [] {
      assert a + b == a;
    } else {
      assert (a + b)[..|a + b| - 1] == a + b[..|b| - 1];
      OthersConcat(outbox, log, a, b[..|b| - 1]);
    }
  }

  predicate NoneAccepted(os: seq<Other>) {
    forall i :: 0 <= i < |os| ==> !os[i].Accepted?
  }

  /** How many records with this key the others append. */
  function Appends(os: seq<Other>, key: string): nat {
    if os == [] then 0 else
    var o := os[|os| - 1];
    Appends(os[..|os| - 1], key) + (if o.Appended? && o.record.key == key then 1 else 0)
  }

  /** What the store and the broker do to one iteration of the loop, and what other processes do just before
      each of its calls. */
  datatype Plan = Plan(select: Fault, produce: Fault, mark: Fault,
                       beforeSelect: seq<Other>, beforeProduce: seq<Other>, beforeMark: seq<Other>)
  {
    predicate Alone() {
      beforeSelect == beforeProduce == beforeMark == []
    }

    /** Others may publish rows and write to the topic, but no event is accepted meanwhile. */
    predicate NoAccepts() {
      NoneAccepted(beforeSelect) && NoneAccepted(beforeProduce) && NoneAccepted(beforeMark)
    }

    /** How many records with this key the others append during the iteration, at most. */
    function OthersAppend(key: string): nat {
      Appends(beforeSelect, key) + Appends(beforeProduce, key) + Appends(beforeMark, key)
    }
  }

  function OthersCopies(plans: seq<Plan>, key: string): nat
    decreases |plans|
  {
    if plans == [] then 0 else plans[0].OthersAppend(key) + OthersCopies(plans[1..], key)
  }

  predicate Troubled(p: Plan) {
    !(p.select == p.produce == p.mark == NoFault)
  }

  function TroubledCount(plans: seq<Plan>): nat
    decreases |plans|
  {
    if plans == [] then 0 else (if Troubled(plans[0]) then 1 else 0) + TroubledCount(plans[1..])
  }

  /** The outbox as the iteration's select finds it. */
  function Found(outbox: seq<Ledger.OutboxRow>, plan: Plan): seq<Ledger.OutboxRow> {
    OthersOutbox(outbox, plan.beforeSelect)
  }

  /** The row the iteration works on, if its select succeeds and finds one. */
  function Chosen(outbox: seq<Ledger.OutboxRow>, plan: Plan): (row: Option<Ledger.OutboxRow>)
    ensures row.Some? ==> row.value in Found(outbox, plan) && row.value.status.Pending?
  {
    var next := Ledger.NextPending(Found(outbox, plan));
    if plan.select.NoFault? && next.Some? then Some(Found(outbox, plan)[next.value]) else None
  }

  /** The outbox after one iteration. */
  function NextOutbox(outbox: seq<Ledger.OutboxRow>, plan: Plan): seq<Ledger.OutboxRow> {
    var row := Chosen(outbox, plan);
    if row.None? then Found(outbox, plan) else
    var produced := OthersOutbox(Found(outbox, plan), plan.beforeProduce);
    if !plan.produce.NoFault? then produced else
    var marking := OthersOutbox(produced, plan.beforeMark);
    if plan.mark.ErrLost? then marking else Ledger.MarkPublished(marking, row.value.event)
  }

  /** `publishOutbox`: the stored payload under the event id as key. */
  function RecordOf(row: Ledger.OutboxRow): Record {
    Record(row.event, row.payload)
  }

  /** The topic after a row has been chosen and sent, others writing to it before and after. */
  function SentLog(part: string -> nat, log: map<nat, seq<Record>>, row: Ledger.OutboxRow, plan: Plan)
    : map<nat, seq<Record>>
  {
    var before := OthersLog(log, plan.beforeProduce);
    var produced := if plan.produce.ErrLost? then before
                    else Pipeline.Append(before, part(row.event), RecordOf(row));
    if !plan.produce.NoFault? then produced else OthersLog(produced, plan.beforeMark)
  }

  /** The topic after one iteration over this outbox. */
  function NextLog(part: string -> nat, outbox: seq<Ledger.OutboxRow>, log: map<nat, seq<Record>>, plan: Plan)
    : map<nat, seq<Record>>
  {
    var row, selecting := Chosen(outbox, plan), OthersLog(log, plan.beforeSelect);
    if row.None? then selecting else SentLog(part, selecting, row.value, plan)
  }

  /** The outbox after the iterations in turn. */
  function LoopOutbox(outbox: seq<Ledger.OutboxRow>, plans: seq<Plan>): seq<Ledger.OutboxRow>
    decreases |plans|
  {
    if plans == [] then outbox else LoopOutbox(NextOutbox(outbox, plans[0]), plans[1..])
  }

  /** The topic after the iterations in turn. */
  function LoopLog(part: string -> nat, outbox: seq<Ledger.OutboxRow>, log: map<nat, seq<Record>>, plans: seq<Plan>)
    : map<nat, seq<Record>>
    decreases |plans|
  {
    if plans == [] then log else
    LoopLog(part, NextOutbox(outbox, plans[0]), NextLog(part, outbox, log, plans[0]), plans[1..])
  }

  /** The events of the rows that the iterations have sent to the topic, acknowledged or not, once for each. */
  function SentBy(outbox: seq<Ledger.OutboxRow>, plans: seq<Plan>): multiset<string>
    decreases |plans|
  {
    if plans == [] then multiset{} else
    var row := Chosen(outbox, plans[0]);
    (if row.Some? && !plans[0].produce.ErrLost? then multiset{row.value.event} else multiset{})
    + SentBy(NextOutbox(outbox, plans[0]), plans[1..])
  }

  /** The events of the rows that the iterations have marked, after an acknowledged send. */
  function MarkedBy(outbox: seq<Ledger.OutboxRow>, plans: seq<Plan>): multiset<string>
    decreases |plans|
  {
    if plans == [] then multiset{} else
    var row := Chosen(outbox, plans[0]);
    (if row.Some? && plans[0].produce.NoFault? && !plans[0].mark.ErrLost? then multiset{row.value.event}
     else multiset{})
    + MarkedBy(NextOutbox(outbox, plans[0]), plans[1..])
  }

  /** Each iteration that works on the event's row fails to send it, and appends nothing if `lost`. */
  predicate SendsFail(outbox: seq<Ledger.OutboxRow>, plans: seq<Plan>, e: string, lost: bool)
    decreases |plans|
  {
    plans == [] ||
    var row, fault := Chosen(outbox, plans[0]), plans[0].produce;
    && (row.Some? && row.value.event == e ==> if lost then fault.ErrLost? else !fault.NoFault?)
    && SendsFail(NextOutbox(outbox, plans[0]), plans[1..], e, lost)
  }

  /** The rows that the troubled iterations of the loop work on, once for each such iteration. */
  function FaultsOn(outbox: seq<Ledger.OutboxRow>, plans: seq<Plan>): multiset<string>
    decreases |plans|
  {
    if plans == [] then multiset{} else
    var row := Chosen(outbox, plans[0]);
    (if row.Some? && Troubled(plans[0]) then multiset{row.value.event} else multiset{})
    + FaultsOn(NextOutbox(outbox, plans[0]), plans[1..])
  }

  lemma FaultsStep(outbox: seq<Ledger.OutboxRow>, plans: seq<Plan>, e: string)
    requires plans != []
    ensures var row := Chosen(outbox, plans[0]);
            FaultsOn(outbox, plans)[e] ==
            (if row.Some? && row.value.event == e && Troubled(plans[0]) then 1 else 0)
            + FaultsOn(NextOutbox(outbox, plans[0]), plans[1..])[e]
  {
  }

  /** An iteration whose select fails works on no row, and every other troubled one on one at most. */
  lemma {:induction false} FaultsAreTroubled(outbox: seq<Ledger.OutboxRow>, plans: seq<Plan>)
    ensures |FaultsOn(outbox, plans)| <= TroubledCount(plans)
    decreases |plans|
  {
    if plans != [] {
      FaultsAreTroubled(NextOutbox(outbox, plans[0]), plans[1..]);
    }
  }

  function PendingCount(outbox: seq<Ledger.OutboxRow>): nat {
    if outbox == [] then 0 else
    PendingCount(outbox[..|outbox| - 1]) + (if outbox[|outbox| - 1].status.Pending? then 1 else 0)
  }

  /** How many records in the log carry the key. */
  function Copies(records: seq<Record>, key: string): nat {
    if records == [] then 0 else
    Copies(records[..|records| - 1], key) + (if records[|records| - 1].key == key then 1 else 0)
  }

  lemma {:induction false} NothingToMark(outbox: seq<Ledger.OutboxRow>, event: string)
    requires !Ledger.IsPending(outbox, event)
    ensures Ledger.MarkPublished(outbox, event) == outbox
  {
    if outbox != [] {
      var n := |outbox| - 1;
      forall i | 0 <= i < n && outbox[..n][i].event == event
        ensures !outbox[..n][i].status.Pending?
      {
        assert outbox[..n][i] == outbox[i];
      }
      NothingToMark(outbox[..n], event);
    }
  }

  /** Marking a pending event settles exactly one row. */
  lemma {:induction false} MarkSettlesOne(outbox: seq<Ledger.OutboxRow>, event: string)
    requires Ledger.EventsDistinct(outbox) && Ledger.IsPending(outbox, event)
    ensures PendingCount(Ledger.MarkPublished(outbox, event)) == PendingCount(outbox) - 1
  {
    var n := |outbox| - 1;
    var marked := Ledger.MarkPublished(outbox, event);
    assert marked[..n] == Ledger.MarkPublished(outbox[..n], event);
    if outbox[n].event == event {
      forall i | 0 <= i < n
        ensures outbox[i].event != event
      {
        assert outbox[i].event != outbox[n].event;
      }
      NothingToMark(outbox[..n], event);
    } else {
      var i :| 0 <= i < |outbox| && outbox[i].event == event && outbox[i].status.Pending?;
      assert outbox[..n][i] == outbox[i];
      MarkSettlesOne(outbox[..n], event);
    }
  }

  lemma {:induction false} NonePending(outbox: seq<Ledger.OutboxRow>)
    ensures Ledger.NextPending(outbox).None? <==> PendingCount(outbox) == 0
  {
    if outbox != [] {
      NonePending(outbox[..|outbox| - 1]);
    }
  }

  lemma CopiesAfterAppend(log: map<nat, seq<Record>>, p: nat, r: Record, q: nat, key: string)
    ensures Copies(Pipeline.Log(Pipeline.Append(log, p, r), q), key) ==
            Copies(Pipeline.Log(log, q), key) + (if p == q && key == r.key then 1 else 0)
  {
    var records := Pipeline.Log(log, p);
    assert (records + [r])[..|records|] == records;
  }

  lemma {:induction false} CopiesAfterOthers(log: map<nat, seq<Record>>, os: seq<Other>, q: nat, key: string)
    ensures Copies(Pipeline.Log(log, q), key) <= Copies(Pipeline.Log(OthersLog(log, os), q), key) <=
            Copies(Pipeline.Log(log, q), key) + Appends(os, key)
  {
    if os != [] {
      var n := |os| - 1;
      CopiesAfterOthers(log, os[..n], q, key);
      if os[n].Appended? {
        CopiesAfterAppend(OthersLog(log, os[..n]), os[n].p, os[n].record, q, key);
      }
    }
  }

  lemma OnlyOneSettled(outbox: seq<Ledger.OutboxRow>, event: string)
    ensures forall e :: Ledger.IsPending(Ledger.MarkPublished(outbox, event), e) ==> Ledger.IsPending(outbox, e)
  {
    var outbox' := Ledger.MarkPublished(outbox, event);
    forall e | Ledger.IsPending(outbox', e)
      ensures Ledger.IsPending(outbox, e)
    {
      var i :| 0 <= i < |outbox'| && outbox'[i].event == e && outbox'[i].status.Pending?;
      assert outbox[i].event == e && outbox[i].status.Pending?;
    }
  }

  /** Rows have been settled at most, and if one has there are fewer pending ones. */
  ghost predicate OnlySettles(outbox: seq<Ledger.OutboxRow>, outbox': seq<Ledger.OutboxRow>) {
    && Ledger.EventsDistinct(outbox') && PendingCount(outbox') <= PendingCount(outbox)
    && (forall e :: Ledger.IsPending(outbox', e) ==> Ledger.IsPending(outbox, e))
    && (forall e :: Ledger.IsPending(outbox, e) && !Ledger.IsPending(outbox', e) ==>
          PendingCount(outbox') < PendingCount(outbox))
  }

  lemma MarkOnlySettles(outbox: seq<Ledger.OutboxRow>, event: string)
    requires Ledger.EventsDistinct(outbox)
    ensures var outbox' := Ledger.MarkPublished(outbox, event);
            OnlySettles(outbox, outbox') && !Ledger.IsPending(outbox', event)
  {
    OnlyOneSettled(outbox, event);
    if Ledger.IsPending(outbox, event) {
      MarkSettlesOne(outbox, event);
    } else {
      NothingToMark(outbox, event);
    }
  }

  lemma {:induction false} OthersOnlySettle(outbox: seq<Ledger.OutboxRow>, os: seq<Other>)
    requires Ledger.EventsDistinct(outbox) && NoneAccepted(os)
    ensures OnlySettles(outbox, OthersOutbox(outbox, os))
  {
    if os != [] {
      var n := |os| - 1;
      OthersOnlySettle(outbox, os[..n]);
      if os[n].Marked? { MarkOnlySettles(OthersOutbox(outbox, os[..n]), os[n].event); }
    }
  }

  /** Without accepts an iteration settles rows at most; without trouble it sees the row it chose settled. */
  lemma IterationSettles(outbox: seq<Ledger.OutboxRow>, plan: Plan)
    requires Ledger.EventsDistinct(outbox) && plan.NoAccepts()
    ensures var outbox', row := NextOutbox(outbox, plan), Chosen(outbox, plan);
            && OnlySettles(outbox, outbox')
            && (!Troubled(plan) ==> PendingCount(outbox') == 0 || PendingCount(outbox') < PendingCount(outbox))
            && (row.Some? ==> Ledger.IsPending(outbox, row.value.event))
            && (row.Some? && !Troubled(plan) ==> !Ledger.IsPending(outbox', row.value.event))
  {
    var found := Found(outbox, plan);
    OthersOnlySettle(outbox, plan.beforeSelect);
    NonePending(found);
    if Chosen(outbox, plan).Some? {
      var produced := OthersOutbox(found, plan.beforeProduce);
      assert Ledger.IsPending(found, Chosen(outbox, plan).value.event);
      OthersOnlySettle(found, plan.beforeProduce);
      OthersOnlySettle(produced, plan.beforeMark);
      MarkOnlySettles(OthersOutbox(produced, plan.beforeMark), Chosen(outbox, plan).value.event);
    }
  }

  lemma CopiesSent(part: string -> nat, log: map<nat, seq<Record>>, row: Ledger.OutboxRow, plan: Plan, e: string)
    ensures var own := if row.event == e && !plan.produce.ErrLost? then 1 else 0;
            var copies := Copies(Pipeline.Log(log, part(e)), e);
            copies + own <= Copies(Pipeline.Log(SentLog(part, log, row, plan), part(e)), e) <=
            copies + own + Appends(plan.beforeProduce, e) + Appends(plan.beforeMark, e)
  {
    var before := OthersLog(log, plan.beforeProduce);
    var produced := if plan.produce.ErrLost? then before
                    else Pipeline.Append(before, part(row.event), RecordOf(row));
    CopiesAfterOthers(log, plan.beforeProduce, part(e), e);
    CopiesAfterAppend(before, part(row.event), RecordOf(row), part(e), e);
    CopiesAfterOthers(produced, plan.beforeMark, part(e), e);
  }

  /** It appends one copy, of the row it chose, unless its send is lost; the other new copies are those that
      others append. */
  lemma IterationAppends(part: string -> nat, outbox: seq<Ledger.OutboxRow>, log: map<nat, seq<Record>>, plan: Plan,
                         e: string)
    ensures var log', row := NextLog(part, outbox, log, plan), Chosen(outbox, plan);
            var own := if row.Some? && row.value.event == e && !plan.produce.ErrLost? then 1 else 0;
            Copies(Pipeline.Log(log, part(e)), e) + own <= Copies(Pipeline.Log(log', part(e)), e) <=
            Copies(Pipeline.Log(log, part(e)), e) + own + plan.OthersAppend(e)
  {
    var row, selecting := Chosen(outbox, plan), OthersLog(log, plan.beforeSelect);
    CopiesAfterOthers(log, plan.beforeSelect, part(e), e);
    if row.Some? {
      CopiesSent(part, selecting, row.value, plan, e);
    }
  }

  /** Whether the event was pending before and is not any more. */
  function SettledSince(outbox: seq<Ledger.OutboxRow>, outbox': seq<Ledger.OutboxRow>, e: string): nat {
    if Ledger.IsPending(outbox, e) && !Ledger.IsPending(outbox', e) then 1 else 0
  }

  // ---------------------------------------------------------------- the iterations in turn

  /** Exactly the copies that the iterations have sent are new, but for those that others append. */
  lemma {:induction false} LoopCopies(part: string -> nat, outbox: seq<Ledger.OutboxRow>, log: map<nat, seq<Record>>,
                                      plans: seq<Plan>, e: string)
    ensures var before := Copies(Pipeline.Log(log, part(e)), e);
            var after := Copies(Pipeline.Log(LoopLog(part, outbox, log, plans), part(e)), e);
            before + SentBy(outbox, plans)[e] <= after <= before + SentBy(outbox, plans)[e] + OthersCopies(plans, e)
    decreases |plans|
  {
    if plans != [] {
      IterationAppends(part, outbox, log, plans[0], e);
      LoopCopies(part, NextOutbox(outbox, plans[0]), NextLog(part, outbox, log, plans[0]), plans[1..], e);
    }
  }

  lemma MarkedIsSettled(outbox: seq<Ledger.OutboxRow>, event: string, e: string)
    ensures Ledger.IsPending(Ledger.MarkPublished(outbox, event), e) <==> Ledger.IsPending(outbox, e) && e != event
  {
    var outbox' := Ledger.MarkPublished(outbox, event);
    OnlyOneSettled(outbox, event);
    if Ledger.IsPending(outbox, e) && e != event {
      var i :| 0 <= i < |outbox| && outbox[i].event == e && outbox[i].status.Pending?;
      assert outbox'[i] == outbox[i];
    }
  }

  /** Alone, exactly the rows that the iterations have marked are settled. */
  lemma {:induction false} LoopSettles(outbox: seq<Ledger.OutboxRow>, plans: seq<Plan>, e: string)
    requires forall i :: 0 <= i < |plans| ==> plans[i].Alone()
    ensures Ledger.IsPending(LoopOutbox(outbox, plans), e) <==>
            Ledger.IsPending(outbox, e) && MarkedBy(outbox, plans)[e] == 0
    decreases |plans|
  {
    if plans != [] {
      if Chosen(outbox, plans[0]).Some? {
        MarkedIsSettled(outbox, Chosen(outbox, plans[0]).value.event, e);
      }
      LoopSettles(NextOutbox(outbox, plans[0]), plans[1..], e);
    }
  }

  lemma {:induction false} FailedSendsLeave(outbox: seq<Ledger.OutboxRow>, plans: seq<Plan>, e: string, lost: bool)
    requires SendsFail(outbox, plans, e, lost)
    ensures MarkedBy(outbox, plans)[e] == 0 && (lost ==> SentBy(outbox, plans)[e] == 0)
    decreases |plans|
  {
    if plans != [] {
      FailedSendsLeave(NextOutbox(outbox, plans[0]), plans[1..], e, lost);
    }
  }

  lemma {:induction false} AloneNobodyAppends(plans: seq<Plan>, e: string)
    requires forall i :: 0 <= i < |plans| ==> plans[i].Alone()
    ensures OthersCopies(plans, e) == 0
    decreases |plans|
  {
    if plans != [] {
      AloneNobodyAppends(plans[1..], e);
    }
  }

  /** Alone, a row whose send fails in every iteration that works on it is still pending after the loop; and if the
      sends are lost, or none works on it, the topic has no new copy of it. */
  lemma UnsentStaysPending(part: string -> nat, outbox: seq<Ledger.OutboxRow>, log: map<nat, seq<Record>>,
                           plans: seq<Plan>, e: string, lost: bool)
    requires forall i :: 0 <= i < |plans| ==> plans[i].Alone()
    requires SendsFail(outbox, plans, e, lost)
    ensures Ledger.IsPending(outbox, e) ==> Ledger.IsPending(LoopOutbox(outbox, plans), e)
    ensures lost ==> Copies(Pipeline.Log(LoopLog(part, outbox, log, plans), part(e)), e) ==
                     Copies(Pipeline.Log(log, part(e)), e)
  {
    FailedSendsLeave(outbox, plans, e, lost);
    LoopSettles(outbox, plans, e);
    LoopCopies(part, outbox, log, plans, e);
    AloneNobodyAppends(plans, e);
  }

  predicate NoneAccepts(plans: seq<Plan>) {
    forall i :: 0 <= i < |plans| ==> plans[i].NoAccepts()
  }

  /** Without accepts the outbox is empty after as many iterations as there were pending rows plus troubled
      ones. */
  lemma {:induction false} LoopDrains(outbox: seq<Ledger.OutboxRow>, plans: seq<Plan>)
    requires Ledger.EventsDistinct(outbox) && NoneAccepts(plans)
    ensures OnlySettles(outbox, LoopOutbox(outbox, plans))
    ensures |plans| >= PendingCount(outbox) + TroubledCount(plans) ==> PendingCount(LoopOutbox(outbox, plans)) == 0
    decreases |plans|
  {
    if plans != [] {
      IterationSettles(outbox, plans[0]);
      LoopDrains(NextOutbox(outbox, plans[0]), plans[1..]);
    }
  }

  /** What the iterations have sent of a row is paid for by a fault on it, or by its being settled. */
  lemma {:induction false} SendsArePaid(outbox: seq<Ledger.OutboxRow>, plans: seq<Plan>, e: string)
    requires Ledger.EventsDistinct(outbox) && NoneAccepts(plans)
    ensures SentBy(outbox, plans)[e] <= FaultsOn(outbox, plans)[e] + SettledSince(outbox, LoopOutbox(outbox, plans), e)
    decreases |plans|
  {
    if plans != [] {
      var next := NextOutbox(outbox, plans[0]);
      IterationSettles(outbox, plans[0]);
      FaultsStep(outbox, plans, e);
      LoopDrains(next, plans[1..]);
      SendsArePaid(next, plans[1..], e);
    }
  }

  lemma CopiesArePaid(part: string -> nat, outbox: seq<Ledger.OutboxRow>, log: map<nat, seq<Record>>, plans: seq<Plan>)
    requires Ledger.EventsDistinct(outbox) && NoneAccepts(plans)
    ensures var outbox', log' := LoopOutbox(outbox, plans), LoopLog(part, outbox, log, plans);
            forall e :: Copies(Pipeline.Log(log', part(e)), e) <=
                        Copies(Pipeline.Log(log, part(e)), e) + FaultsOn(outbox, plans)[e] + OthersCopies(plans, e)
                        + SettledSince(outbox, outbox', e)
  {
    var outbox', log' := LoopOutbox(outbox, plans), LoopLog(part, outbox, log, plans);
    forall e
      ensures Copies(Pipeline.Log(log', part(e)), e) <=
              Copies(Pipeline.Log(log, part(e)), e) + FaultsOn(outbox, plans)[e] + OthersCopies(plans, e)
              + SettledSince(outbox, outbox', e)
    {
      SendsArePaid(outbox, plans, e);
      LoopCopies(part, outbox, log, plans, e);
    }
  }

  class Process {
    const pg: Postgres
    const kafka: Kafka

    constructor (pg: Postgres, kafka: Kafka)
      ensures this.pg == pg && this.kafka == kafka
    {
      this.pg, this.kafka := pg, kafka;
    }

    /** `publishOutbox`: the stored payload under the event id as key. */
    method PublishOutbox(event: string, payload: Value, fault: Fault) returns (ok: bool)
      modifies kafka`log
      ensures ok == fault.NoFault?
      ensures kafka.log == if fault.ErrLost? then old(kafka.log)
                           else Pipeline.Append(old(kafka.log), kafka.part(event), Record(event, payload))
    {
      ok := kafka.ProduceSync(Record(event, payload), fault);
    }

    /** What other processes do in the meantime. */
    method OthersAct(os: seq<Other>)
      modifies pg`outbox, kafka`log
      ensures pg.outbox == OthersOutbox(old(pg.outbox), os) && kafka.log == OthersLog(old(kafka.log), os)
    {
      var i := 0;
      while i < |os|
        invariant i <= |os|
        invariant pg.outbox == OthersOutbox(old(pg.outbox), os[..i])
        invariant kafka.log == OthersLog(old(kafka.log), os[..i])
      {
        assert os[..i + 1][..i] == os[..i];
        pg.outbox, kafka.log := OtherOutbox(pg.outbox, os[i]), OtherLog(kafka.log, os[i]);
        i := i + 1;
      }
      assert os[..i] == os;
    }

    /** One iteration, whatever other processes do between its calls. Alone, it marks the row only after its
        record is acknowledged: whatever fails, an unmarked row stays pending and a published row has been
        appended. */
    method PublishNext(plan: Plan)
      modifies pg`outbox, kafka`log
      ensures pg.outbox == NextOutbox(old(pg.outbox), plan)
      ensures kafka.log == NextLog(kafka.part, old(pg.outbox), old(kafka.log), plan)
      ensures plan.Alone() && old(Chosen(pg.outbox, plan)).Some? ==>
                var row := old(Chosen(pg.outbox, plan)).value;
                && kafka.log == (if plan.produce.ErrLost? then old(kafka.log)
                                 else Pipeline.Append(old(kafka.log), kafka.part(row.event), RecordOf(row)))
                && pg.outbox == (if plan.produce.NoFault? && !plan.mark.ErrLost?
                                 then Ledger.MarkPublished(old(pg.outbox), row.event) else old(pg.outbox))
      ensures !plan.select.NoFault? ==>
                pg.outbox == OthersOutbox(old(pg.outbox), plan.beforeSelect) &&
                kafka.log == OthersLog(old(kafka.log), plan.beforeSelect)
    {
      OthersAct(plan.beforeSelect);
      var next := pg.NextPendingOutbox(plan.select);
      if next.Err? || next.value.None? {
        return;
      }
      var (event, payload) := next.value.value;
      OthersAct(plan.beforeProduce);
      var ok := PublishOutbox(event, payload, plan.produce);
      if !ok {
        return;
      }
      OthersAct(plan.beforeMark);
      var _ := pg.MarkOutboxPublished(event, plan.mark);
    }

    ghost function CopiesOf(event: string): nat
      reads kafka
    {
      Copies(Pipeline.Log(kafka.log, kafka.part(event)), event)
    }

    /** What one iteration changes: it appends one copy of the row it chose unless its send is lost, and, while no
        event is accepted, it settles rows at most, without trouble the row it chose; whatever other publishers
        and producers do. */
    method Iterate(plan: Plan) returns (ghost worked: Option<string>)
      modifies pg`outbox, kafka`log
      ensures worked == var row := Chosen(old(pg.outbox), plan); if row.Some? then Some(row.value.event) else None
      ensures pg.outbox == NextOutbox(old(pg.outbox), plan)
      ensures kafka.log == NextLog(kafka.part, old(pg.outbox), old(kafka.log), plan)
      ensures forall e :: var own := if worked == Some(e) && !plan.produce.ErrLost? then 1 else 0;
                          old(CopiesOf(e)) + own <= CopiesOf(e) <= old(CopiesOf(e)) + own + plan.OthersAppend(e)
      ensures old(Ledger.EventsDistinct(pg.outbox)) && plan.NoAccepts() ==>
                && OnlySettles(old(pg.outbox), pg.outbox)
                && (!Troubled(plan) ==>
                      PendingCount(pg.outbox) == 0 || PendingCount(pg.outbox) < old(PendingCount(pg.outbox)))
                && (worked.Some? ==> old(Ledger.IsPending(pg.outbox, worked.value)))
                && (worked.Some? && !Troubled(plan) ==> !Ledger.IsPending(pg.outbox, worked.value))
    {
      ghost var row := Chosen(pg.outbox, plan);
      worked := if row.Some? then Some(row.value.event) else None;
      if Ledger.EventsDistinct(pg.outbox) && plan.NoAccepts() { IterationSettles(pg.outbox, plan); }
      forall e { IterationAppends(kafka.part, pg.outbox, kafka.log, plan, e); }
      PublishNext(plan);
    }

    /** The loop: outbox and topic are those of its iterations in turn, each under its own plan. With no new accepts
        it empties the outbox once it has made as many iterations as there were pending rows plus troubled
        ones, and each event gets at most one copy, one for each troubled iteration that worked on its row, and
        those that others append. Other publishers may settle rows, and other producers may write to the topic,
        at any time. */
    method Loop(plans: seq<Plan>)
      modifies pg`outbox, kafka`log
      ensures pg.outbox == LoopOutbox(old(pg.outbox), plans)
      ensures kafka.log == LoopLog(kafka.part, old(pg.outbox), old(kafka.log), plans)
      ensures old(Ledger.EventsDistinct(pg.outbox)) && NoneAccepts(plans) ==>
                && (|plans| >= old(PendingCount(pg.outbox)) + TroubledCount(plans) ==> PendingCount(pg.outbox) == 0)
                && forall e :: CopiesOf(e) <=
                               old(CopiesOf(e)) + FaultsOn(old(pg.outbox), plans)[e] + OthersCopies(plans, e)
                               + SettledSince(old(pg.outbox), pg.outbox, e)
    {
      ghost var outbox, log := pg.outbox, kafka.log;
      var i := 0;
      while i < |plans|
        invariant i <= |plans|
        invariant LoopOutbox(pg.outbox, plans[i..]) == LoopOutbox(outbox, plans)
        invariant LoopLog(kafka.part, pg.outbox, kafka.log, plans[i..]) == LoopLog(kafka.part, outbox, log, plans)
      {
        assert plans[i..][1..] == plans[i + 1..];
        var _ := Iterate(plans[i]);
        i := i + 1;
      }
      if Ledger.EventsDistinct(outbox) && NoneAccepts(plans) {
        LoopDrains(outbox, plans);
        CopiesArePaid(kafka.part, outbox, log, plans);
      }
    }
  }
}
