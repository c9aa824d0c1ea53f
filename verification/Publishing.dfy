/** One publisher over an outbox that is filled in id order: what it appends, and in which order. */
module Publishing {
  import opened Engine
  import opened Sequences
  import opened Pipeline
  import opened Invariants
  import Ledger

  function Events(rows: seq<Ledger.OutboxRow>): (r: seq<string>)
    ensures |r| == |rows| && forall i :: 0 <= i < |r| ==> r[i] == rows[i].event
  {
    seq(|rows|, i requires 0 <= i < |rows| => rows[i].event)
  }

  /** A sequence with each run of equal neighbours reduced to one. */
  function Collapse(s: seq<string>): (c: seq<string>)
    ensures s == [] <==> c == []
    ensures s != [] ==> c[|c| - 1] == s[|s| - 1]
  {
    if s == [] then [] else
    var before, last := Collapse(s[..|s| - 1]), s[|s| - 1];
    if before != [] && before[|before| - 1] == last then before else before + [last]
  }

  lemma {:induction false} CollapseSnoc(s: seq<string>, e: string)
    ensures var c := Collapse(s);
            Collapse(s + [e]) == if c != [] && c[|c| - 1] == e then c else c + [e]
  {
    var t := s + [e];
    assert t[..|t| - 1] == s && t[|t| - 1] == e;
  }

  lemma {:induction false} CollapseKeepsMembers(s: seq<string>, e: string)
    ensures e in s <==> e in Collapse(s)
  {
    if s != [] {
      CollapseKeepsMembers(s[..|s| - 1], e);
      assert s == s[..|s| - 1] + [s[|s| - 1]];
    }
  }

  /** How far the outbox is published: the position of the next pending row. */
  function Head(outbox: seq<Ledger.OutboxRow>): nat {
    var r := Ledger.NextPending(outbox);
    if r.None? then |outbox| else r.value
  }

  ghost predicate SortedById(outbox: seq<Ledger.OutboxRow>) {
    forall i, j :: 0 <= i < j < |outbox| ==> outbox[i].id < outbox[j].id
  }

  ghost predicate SplitAt(outbox: seq<Ledger.OutboxRow>, h: nat) {
    && h <= |outbox|
    && (forall i :: 0 <= i < h ==> outbox[i].status.Published?)
    && (forall i :: h <= i < |outbox| ==> outbox[i].status.Pending?)
  }

  lemma HeadIsSplit(outbox: seq<Ledger.OutboxRow>, h: nat)
    requires SortedById(outbox) && SplitAt(outbox, h)
    ensures Head(outbox) == h
  {
    var r := Ledger.NextPending(outbox);
    if h < |outbox| {
      assert r.Some?;
      assert outbox[r.value].id <= outbox[h].id;
    }
  }

  /** The outbox is a queue: a published prefix in id order, then the pending rows. */
  ghost predicate IsQueue(outbox: seq<Ledger.OutboxRow>) {
    SortedById(outbox) && SplitAt(outbox, Head(outbox))
  }

  ghost predicate HeadAppended(outbox: seq<Ledger.OutboxRow>, appended: seq<string>) {
    var h := Head(outbox);
    h < |outbox| && Collapse(appended) == Events(outbox[..h + 1])
  }

  /** The appended events are the published rows in order, each at least once, followed by zero or
      more copies of the head pending row. */
  ghost predicate Stutters(outbox: seq<Ledger.OutboxRow>, appended: seq<string>) {
    var h := Head(outbox);
    && h <= |outbox|
    && (Collapse(appended) == Events(outbox[..h]) || HeadAppended(outbox, appended))
  }

  ghost predicate AtHead(outbox: seq<Ledger.OutboxRow>, appended: seq<string>, p: Publisher) {
    && Head(outbox) < |outbox|
    && outbox[Head(outbox)].event == p.event
    && (p.Produced? ==> HeadAppended(outbox, appended))
  }

  ghost predicate AllAtHead(outbox: seq<Ledger.OutboxRow>, appended: seq<string>, publishers: map<nat, Publisher>) {
    && (forall q :: q in publishers ==> AtHead(outbox, appended, publishers[q]))
    && (forall q, q' :: q in publishers && q' in publishers ==> q == q')
  }

  ghost predicate PublishingOk(outbox: seq<Ledger.OutboxRow>, appended: seq<string>, publishers: map<nat, Publisher>) {
    IsQueue(outbox) && Stutters(outbox, appended) && AllAtHead(outbox, appended, publishers)
  }

  // ---------------------------------------------------------------- the three writes

  lemma HeadStays(outbox: seq<Ledger.OutboxRow>, row: Ledger.OutboxRow)
    requires IsQueue(outbox) && row.status.Pending? && forall i :: 0 <= i < |outbox| ==> outbox[i].id < row.id
    ensures IsQueue(outbox + [row]) && Head(outbox + [row]) == Head(outbox)
  {
    HeadIsSplit(outbox + [row], Head(outbox));
  }

  /** An accept that commits in id order extends the queue at its end. */
  lemma ExtendQueue(outbox: seq<Ledger.OutboxRow>, row: Ledger.OutboxRow, appended: seq<string>,
                    publishers: map<nat, Publisher>)
    requires PublishingOk(outbox, appended, publishers) && row.status.Pending?
    requires forall i :: 0 <= i < |outbox| ==> outbox[i].id < row.id
    ensures PublishingOk(outbox + [row], appended, publishers)
  {
    var h, outbox' := Head(outbox), outbox + [row];
    HeadStays(outbox, row);
    assert outbox'[..h] == outbox[..h];
    assert h < |outbox| ==> outbox'[..h + 1] == outbox[..h + 1] && outbox'[h] == outbox[h];
  }

  lemma ProduceHead(outbox: seq<Ledger.OutboxRow>, appended: seq<string>, event: string)
    requires IsQueue(outbox) && Stutters(outbox, appended) && Ledger.EventsDistinct(outbox)
    requires Head(outbox) < |outbox| && outbox[Head(outbox)].event == event
    ensures HeadAppended(outbox, appended + [event])
    ensures appended == [] || appended[|appended| - 1] == event || event !in appended
  {
    var h := Head(outbox);
    CollapseSnoc(appended, event);
    assert Events(outbox[..h + 1]) == Events(outbox[..h]) + [event];
    CollapseKeepsMembers(appended, event);
    if Collapse(appended) == Events(outbox[..h]) {
      assert event !in Events(outbox[..h]);
    }
  }

  lemma MarkedRow(outbox: seq<Ledger.OutboxRow>, h: nat, i: nat)
    requires Ledger.EventsDistinct(outbox) && SplitAt(outbox, h) && h < |outbox| && i < |outbox|
    ensures var row := Ledger.MarkPublished(outbox, outbox[h].event)[i];
            row == outbox[i].(status := if i <= h then Ledger.Published else Ledger.Pending)
  {
    assert i < h ==> outbox[i].event != outbox[h].event;
    assert h < i ==> outbox[h].event != outbox[i].event;
  }

  /** Publishing the head row moves the head by one and settles its copies. */
  lemma MoveHead(outbox: seq<Ledger.OutboxRow>, outbox': seq<Ledger.OutboxRow>, appended: seq<string>)
    requires IsQueue(outbox) && HeadAppended(outbox, appended) && |outbox'| == |outbox|
    requires forall i :: 0 <= i < |outbox| ==>
               outbox'[i] == outbox[i].(status := if i <= Head(outbox) then Ledger.Published else Ledger.Pending)
    ensures PublishingOk(outbox', appended, map[])
  {
    var h := Head(outbox);
    assert SortedById(outbox');
    HeadIsSplit(outbox', h + 1);
    assert Events(outbox'[..h + 1]) == Events(outbox[..h + 1]);
  }

  lemma MarkHead(outbox: seq<Ledger.OutboxRow>, appended: seq<string>, event: string)
    requires IsQueue(outbox) && HeadAppended(outbox, appended) && Ledger.EventsDistinct(outbox)
    requires outbox[Head(outbox)].event == event
    ensures PublishingOk(Ledger.MarkPublished(outbox, event), appended, map[])
  {
    var h, outbox' := Head(outbox), Ledger.MarkPublished(outbox, event);
    forall i | 0 <= i < |outbox|
      ensures outbox'[i] == outbox[i].(status := if i <= h then Ledger.Published else Ledger.Pending)
    {
      MarkedRow(outbox, h, i);
    }
    MoveHead(outbox, outbox', appended);
  }

  lemma CommitStep(s: State, h: nat, m: Ledger.Move)
    requires PublishingOk(s.db.outbox, s.hist.appended, s.publishers)
    requires Enabled(s, Transact(h, m)) && CommitsInOrder(s, Transact(h, m))
    ensures PublishingOk(Ledger.Next(s.db, h, m).outbox, s.hist.appended, s.publishers)
  {
    var tx, outbox' := s.db.open[h], Ledger.Next(s.db, h, m).outbox;
    if m.Commit? && !m.fault.ErrLost? && tx.kind.Accept? {
      var row := Ledger.OutboxRow(tx.phase.id, tx.event, tx.eventType, tx.kind.payload, Ledger.Pending);
      assert outbox' == s.db.outbox + [row];
      ExtendQueue(s.db.outbox, row, s.hist.appended, s.publishers);
    } else {
      assert outbox' == s.db.outbox;
    }
  }

  lemma ProduceStep(s: State, q: nat, appended: bool, acked: bool)
    requires PublishingOk(s.db.outbox, s.hist.appended, s.publishers)
    requires Ledger.EventsDistinct(s.db.outbox) && Enabled(s, Produce(q, appended, acked))
    ensures PublishingOk(s.db.outbox, NextAppended(s, Produce(q, appended, acked)),
                         NextPublishers(s, Produce(q, appended, acked)))
  {
    assert AtHead(s.db.outbox, s.hist.appended, s.publishers[q]);
    if appended {
      ProduceHead(s.db.outbox, s.hist.appended, s.publishers[q].event);
    }
  }

  lemma MarkStep(s: State, q: nat, fault: Fault)
    requires PublishingOk(s.db.outbox, s.hist.appended, s.publishers)
    requires Ledger.EventsDistinct(s.db.outbox) && Enabled(s, MarkPublished(q, fault))
    ensures PublishingOk(NextDb(s, MarkPublished(q, fault)).outbox, s.hist.appended,
                         NextPublishers(s, MarkPublished(q, fault)))
  {
    assert AtHead(s.db.outbox, s.hist.appended, s.publishers[q]);
    assert NextPublishers(s, MarkPublished(q, fault)) == map[];
    MarkHead(s.db.outbox, s.hist.appended, s.publishers[q].event);
  }

  lemma PublishingOkStep(s: State, a: Action)
    requires PublishingOk(s.db.outbox, s.hist.appended, s.publishers)
    requires Ledger.EventsDistinct(s.db.outbox) && Enabled(s, a)
    requires a.SelectPending? ==> s.publishers == map[]
    requires CommitsInOrder(s, a)
    ensures PublishingOk(NextDb(s, a).outbox, NextAppended(s, a), NextPublishers(s, a))
  {
    match a
    case Transact(h, m) => CommitStep(s, h, m);
    case Produce(q, appended, acked) => ProduceStep(s, q, appended, acked);
    case MarkPublished(q, fault) => MarkStep(s, q, fault);
    case _ =>
  }

  // ---------------------------------------------------------------- copies are neighbours

  /** All records with one key are neighbours. */
  ghost predicate Contiguous(records: seq<Record>) {
    forall i, j, l :: 0 <= i < j < l < |records| && records[i].key == records[l].key ==>
      records[j].key == records[i].key
  }

  ghost predicate EndsWith(records: seq<Record>, key: string) {
    records != [] && records[|records| - 1].key == key
  }

  ghost predicate CopiesTogether(part: string -> nat, log: map<nat, seq<Record>>, appended: seq<string>) {
    && (forall p :: Contiguous(Log(log, p)))
    && (forall p, i :: 0 <= i < |Log(log, p)| ==> Log(log, p)[i].key in appended)
    && (appended != [] ==> EndsWith(Log(log, part(appended[|appended| - 1])), appended[|appended| - 1]))
  }

  lemma ContiguousSnoc(records: seq<Record>, r: Record)
    requires Contiguous(records)
    requires EndsWith(records, r.key) || forall i :: 0 <= i < |records| ==> records[i].key != r.key
    ensures Contiguous(records + [r])
  {
    var records' := records + [r];
    forall i, j, l | 0 <= i < j < l < |records'| && records'[i].key == records'[l].key
      ensures records'[j].key == records'[i].key
    {
      if l == |records| && j < |records| - 1 {
        assert records[i].key == records[|records| - 1].key;
        assert records[j].key == records[i].key;
      }
    }
  }

  /** The publisher's next event either repeats the last one or is new to the topic. */
  lemma RepeatOrNew(s: State, q: nat)
    requires PublishingOk(s.db.outbox, s.hist.appended, s.publishers) && Ledger.EventsDistinct(s.db.outbox)
    requires q in s.publishers
    ensures var appended, event := s.hist.appended, s.publishers[q].event;
            appended == [] || appended[|appended| - 1] == event || event !in appended
  {
    assert AtHead(s.db.outbox, s.hist.appended, s.publishers[q]);
    ProduceHead(s.db.outbox, s.hist.appended, s.publishers[q].event);
  }

  lemma KeyAppended(part: string -> nat, log: map<nat, seq<Record>>, appended: seq<string>, r: Record, p: nat, i: nat)
    requires CopiesTogether(part, log, appended) && i < |Log(Append(log, part(r.key), r), p)|
    ensures Log(Append(log, part(r.key), r), p)[i].key in appended + [r.key]
  {
    if i < |Log(log, p)| {
      assert Log(Append(log, part(r.key), r), p)[i] == Log(log, p)[i];
    }
  }

  lemma CopiesTogetherAppend(part: string -> nat, log: map<nat, seq<Record>>, appended: seq<string>, r: Record)
    requires CopiesTogether(part, log, appended)
    requires appended == [] || appended[|appended| - 1] == r.key || r.key !in appended
    ensures CopiesTogether(part, Append(log, part(r.key), r), appended + [r.key])
  {
    var p0, log' := part(r.key), Append(log, part(r.key), r);
    assert Log(log', p0) == Log(log, p0) + [r];
    assert forall p :: p != p0 ==> Log(log', p) == Log(log, p);
    ContiguousSnoc(Log(log, p0), r);
    forall p, i | 0 <= i < |Log(log', p)|
      ensures Log(log', p)[i].key in appended + [r.key]
    {
      KeyAppended(part, log, appended, r, p, i);
    }
  }

  lemma CopiesTogetherStep(s: State, a: Action)
    requires CopiesTogether(s.part, s.log, s.hist.appended) && !a.ForeignAppend? && Enabled(s, a)
    requires PublishingOk(s.db.outbox, s.hist.appended, s.publishers) && Ledger.EventsDistinct(s.db.outbox)
    ensures CopiesTogether(s.part, NextLog(s, a), NextAppended(s, a))
  {
    if a.Produce? && a.appended {
      RepeatOrNew(s, a.q);
      var Selected(event, payload) := s.publishers[a.q];
      CopiesTogetherAppend(s.part, s.log, s.hist.appended, Record(event, payload));
    }
  }

  // ---------------------------------------------------------------- the topic, partition by partition

  function Keys(records: seq<Record>): (r: seq<string>)
    ensures |r| == |records| && forall i :: 0 <= i < |r| ==> r[i] == records[i].key
  {
    seq(|records|, i requires 0 <= i < |records| => records[i].key)
  }

  /** The appended events that the key hash sends to partition `p`, in order. */
  function Routed(part: string -> nat, appended: seq<string>, p: nat): seq<string> {
    if appended == [] then [] else
    var before, e := Routed(part, appended[..|appended| - 1], p), appended[|appended| - 1];
    if part(e) == p then before + [e] else before
  }

  /** The keys in each partition are the events that the publishers appended to it, in the same order. */
  ghost predicate LogIsAppended(part: string -> nat, log: map<nat, seq<Record>>, appended: seq<string>) {
    forall p :: Keys(Log(log, p)) == Routed(part, appended, p)
  }

  lemma {:induction false} LogIsAppendedSnoc(part: string -> nat, log: map<nat, seq<Record>>, appended: seq<string>,
                                             r: Record)
    requires LogIsAppended(part, log, appended)
    ensures LogIsAppended(part, Append(log, part(r.key), r), appended + [r.key])
  {
    var log', appended' := Append(log, part(r.key), r), appended + [r.key];
    assert appended'[..|appended|] == appended;
    forall p
      ensures Keys(Log(log', p)) == Routed(part, appended', p)
    {
      assert Keys(Log(log, p)) == Routed(part, appended, p);
    }
  }

  lemma LogIsAppendedStep(s: State, a: Action)
    requires LogIsAppended(s.part, s.log, s.hist.appended) && !a.ForeignAppend? && Enabled(s, a)
    ensures LogIsAppended(s.part, NextLog(s, a), NextAppended(s, a))
  {
    if a.Produce? && a.appended {
      var Selected(event, payload) := s.publishers[a.q];
      LogIsAppendedSnoc(s.part, s.log, s.hist.appended, Record(event, payload));
    }
  }

  /** The events follow the order of the rows, copies of one event counting as equal. */
  ghost predicate FollowsRows(events: seq<string>, rows: seq<Ledger.OutboxRow>) {
    forall i, j, a, b | 0 <= i < j < |events| && 0 <= a < |rows| && 0 <= b < |rows| ::
      rows[a].event == events[i] && rows[b].event == events[j] ==> a <= b
  }

  /** An event of the shorter sequence has its row among the first ones. */
  lemma InRows(before: seq<string>, rows': seq<Ledger.OutboxRow>, rows: seq<Ledger.OutboxRow>, i: nat, a: nat)
    requires rows' <= rows && Ledger.EventsDistinct(rows) && Collapse(before) == Events(rows')
    requires i < |before| && a < |rows| && rows[a].event == before[i]
    ensures a < |rows'| && rows'[a].event == before[i]
  {
    CollapseKeepsMembers(before, before[i]);
    var b :| 0 <= b < |rows'| && Events(rows')[b] == before[i];
    assert rows[b].event == rows[a].event;
  }

  lemma FollowsOneMore(appended: seq<string>, rows': seq<Ledger.OutboxRow>, rows: seq<Ledger.OutboxRow>,
                       i: nat, j: nat, a: nat, b: nat)
    requires appended != [] && rows != [] && rows' <= rows && Ledger.EventsDistinct(rows)
    requires rows[|rows| - 1].event == appended[|appended| - 1]
    requires Collapse(appended[..|appended| - 1]) == Events(rows') && FollowsRows(appended[..|appended| - 1], rows')
    requires i < j < |appended| && a < |rows| && b < |rows|
    requires rows[a].event == appended[i] && rows[b].event == appended[j]
    ensures a <= b
  {
    var n, before := |appended| - 1, appended[..|appended| - 1];
    if j == n {
      assert rows[b].event == rows[|rows| - 1].event;
    } else {
      InRows(before, rows', rows, i, a);
      InRows(before, rows', rows, j, b);
    }
  }

  lemma EventsFront(rows: seq<Ledger.OutboxRow>)
    requires rows != []
    ensures Events(rows)[..|rows| - 1] == Events(rows[..|rows| - 1])
  {
  }

  lemma {:induction false} CollapseFront(appended: seq<string>, rows: seq<Ledger.OutboxRow>)
    requires appended != [] && Collapse(appended) == Events(rows)
    ensures var c := Collapse(appended[..|appended| - 1]);
            rows != [] && c == Events(if c == Collapse(appended) then rows else rows[..|rows| - 1])
  {
    var c, m := Collapse(appended[..|appended| - 1]), |rows| - 1;
    if c != Collapse(appended) {
      EventsFront(rows);
      SnocFront(c, appended[|appended| - 1]);
    }
  }

  lemma FollowsSnoc(appended: seq<string>, rows': seq<Ledger.OutboxRow>, rows: seq<Ledger.OutboxRow>)
    requires appended != [] && rows != [] && rows' <= rows && Ledger.EventsDistinct(rows)
    requires rows[|rows| - 1].event == appended[|appended| - 1]
    requires Collapse(appended[..|appended| - 1]) == Events(rows') && FollowsRows(appended[..|appended| - 1], rows')
    ensures FollowsRows(appended, rows)
  {
    forall i, j, a, b | 0 <= i < j < |appended| && 0 <= a < |rows| && 0 <= b < |rows| &&
                        rows[a].event == appended[i] && rows[b].event == appended[j]
      ensures a <= b
    {
      FollowsOneMore(appended, rows', rows, i, j, a, b);
    }
  }

  lemma {:induction false} CollapseFollowsRows(appended: seq<string>, rows: seq<Ledger.OutboxRow>)
    requires Ledger.EventsDistinct(rows) && Collapse(appended) == Events(rows)
    ensures FollowsRows(appended, rows)
    decreases |appended|
  {
    if appended != [] {
      var before := appended[..|appended| - 1];
      var rows' := if Collapse(before) == Collapse(appended) then rows else rows[..|rows| - 1];
      assert Events(rows)[|rows| - 1] == appended[|appended| - 1];
      CollapseFront(appended, rows);
      CollapseFollowsRows(before, rows');
      FollowsSnoc(appended, rows', rows);
    }
  }

  lemma {:induction false} RoutedFollowsRows(part: string -> nat, appended: seq<string>, p: nat,
                                             rows: seq<Ledger.OutboxRow>)
    requires FollowsRows(appended, rows)
    ensures FollowsRows(Routed(part, appended, p), rows)
    ensures forall e :: e in Routed(part, appended, p) ==> e in appended
    decreases |appended|
  {
    if appended != [] {
      var n := |appended| - 1;
      var before, routed := appended[..n], Routed(part, appended[..n], p);
      RoutedFollowsRows(part, before, p, rows);
      if part(appended[n]) == p {
        forall i, a, b | 0 <= i < |routed| && 0 <= a < |rows| && 0 <= b < |rows| &&
                         rows[a].event == routed[i] && rows[b].event == appended[n]
          ensures a <= b
        {
          assert routed[i] in before;
          var k :| 0 <= k < n && before[k] == routed[i];
          assert appended[k] == routed[i];
        }
      }
    }
  }

  lemma AllRows(appended: seq<string>, outbox: seq<Ledger.OutboxRow>, n: nat)
    requires n <= |outbox| && Ledger.EventsDistinct(outbox) && Collapse(appended) == Events(outbox[..n])
    requires FollowsRows(appended, outbox[..n])
    ensures FollowsRows(appended, outbox)
  {
    forall i, j, a, b | 0 <= i < j < |appended| && 0 <= a < |outbox| && 0 <= b < |outbox| &&
                        outbox[a].event == appended[i] && outbox[b].event == appended[j]
      ensures a <= b
    {
      InRows(appended, outbox[..n], outbox, i, a);
      InRows(appended, outbox[..n], outbox, j, b);
    }
  }

  /** In each partition the records lie in the order of their outbox rows. */
  lemma PartitionsFollowOutbox(part: string -> nat, log: map<nat, seq<Record>>, outbox: seq<Ledger.OutboxRow>,
                               appended: seq<string>)
    requires LogIsAppended(part, log, appended) && Stutters(outbox, appended) && Ledger.EventsDistinct(outbox)
    ensures forall p :: FollowsRows(Keys(Log(log, p)), outbox)
  {
    var h := Head(outbox);
    var n := if Collapse(appended) == Events(outbox[..h]) then h else h + 1;
    CollapseFollowsRows(appended, outbox[..n]);
    AllRows(appended, outbox, n);
    forall p
      ensures FollowsRows(Keys(Log(log, p)), outbox)
    {
      RoutedFollowsRows(part, appended, p, outbox);
    }
  }
}
