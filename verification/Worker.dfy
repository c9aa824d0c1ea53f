/** The worker process: `handleRecord`, the prefix rule and the poll loop (cmd/worker/main.go). */
module Worker {
  import opened Engine
  import opened Sequences
  import opened Completions
  import opened Store
  import opened Broker
  import Pipeline
  import Partition
  import H = Handler
  import Downstream

  /** What a handler call reads and changes: the completions table, the deliveries made so far, and the
      plans of the calls to come. */
  datatype Scene = Scene(table: Table, delivered: seq<Job>, plans: seq<H.Plan>)

  const CLEAN_PLAN := H.Plan(NoFault, NoFault, NoFault, NoFault, Downstream.Response(200), [], [], [], [], [], [])

  /** Calls beyond the planned ones meet no trouble. */
  function PlanAt(plans: seq<H.Plan>, i: nat): H.Plan {
    if i < |plans| then plans[i] else CLEAN_PLAN
  }

  function Later(plans: seq<H.Plan>, i: nat): seq<H.Plan> {
    if i < |plans| then plans[i..] else []
  }

  /** One `handleRecord` call, as the handler machine performs it. */
  function HandleScene(consumer: string, s: Scene, r: Record): (Scene, bool) {
    var plan, later := PlanAt(s.plans, 0), Later(s.plans, 1);
    if !Handleable(r.value) then (Scene(s.table, s.delivered, later), false) else
    var job := r.value.job;
    var (table, ok, called) :=
      H.RunHandler(s.table, Key(job.stripeEventId, consumer), job.eventType, H.Ready, plan);
    (Scene(table, if called then s.delivered + [job] else s.delivered, later), ok)
  }

  function Handle(consumer: string): (Scene, Record) -> (Scene, bool) {
    (s, r) => HandleScene(consumer, s, r)
  }

  /** The completion rows of the records. */
  function Rows(consumer: string, records: seq<Record>): set<Key> {
    set r | r in records :: Pipeline.KeyFor(r, consumer)
  }

  predicate AllReadable(log: seq<Record>) {
    forall i :: 0 <= i < |log| ==> Handleable(log[i].value)
  }

  predicate AllClean(plans: seq<H.Plan>, rows: set<Key>) {
    forall i :: 0 <= i < |plans| ==> plans[i].Clean(rows)
  }

  /** One iteration of the poll loop on one partition. */
  datatype PollPlan = PollPlan(count: nat, plans: seq<H.Plan>, commit: Fault)

  /** A store error, a retryable verdict, somebody else at one of these rows, or a failed commit. What others do
      at other rows is no trouble. */
  predicate Troubled(poll: PollPlan, rows: set<Key>) {
    !poll.commit.NoFault? || !AllClean(poll.plans, rows)
  }

  function TroubledPolls(polls: seq<PollPlan>, rows: set<Key>): nat
    decreases |polls|
  {
    if polls == [] then 0 else (if Troubled(polls[0], rows) then 1 else 0) + TroubledPolls(polls[1..], rows)
  }

  lemma FewerRows(plan: H.Plan, rows: set<Key>, rows': set<Key>)
    requires rows' <= rows
    ensures plan.AwayFrom(rows) ==> plan.AwayFrom(rows')
    ensures plan.Clean(rows) ==> plan.Clean(rows')
  {
  }

  type Handler = (Scene, Record) -> (Scene, bool)

  /** With clean plans the handler returns true on each readable record of these rows. */
  ghost predicate AcceptsClean(handle: Handler, consumer: string, rows: set<Key>) {
    forall s: Scene, r: Record ::
      AllClean(s.plans, rows) && Handleable(r.value) && Pipeline.KeyFor(r, consumer) in rows ==>
        handle(s, r).1 && AllClean(handle(s, r).0.plans, rows)
  }

  lemma CleanSceneAccepts(consumer: string, rows: set<Key>, s: Scene, r: Record)
    requires AllClean(s.plans, rows) && Handleable(r.value) && Pipeline.KeyFor(r, consumer) in rows
    ensures HandleScene(consumer, s, r).1 && AllClean(HandleScene(consumer, s, r).0.plans, rows)
  {
    var k, plan := Pipeline.KeyFor(r, consumer), PlanAt(s.plans, 0);
    FewerRows(plan, rows, {k});
    H.CleanHandled(s.table, k, r.value.job.eventType, H.Ready, plan);
  }

  lemma CallsAccept(consumer: string, rows: set<Key>)
    ensures AcceptsClean(Handle(consumer), consumer, rows)
  {
    forall s: Scene, r: Record |
      AllClean(s.plans, rows) && Handleable(r.value) && Pipeline.KeyFor(r, consumer) in rows
      ensures Handle(consumer)(s, r).1 && AllClean(Handle(consumer)(s, r).0.plans, rows)
    {
      assert Handle(consumer)(s, r) == HandleScene(consumer, s, r);
      CleanSceneAccepts(consumer, rows, s, r);
    }
  }

  lemma {:induction false} AcceptedWhole(handle: Handler, consumer: string, s: Scene, records: seq<Record>,
                                         rows: set<Key>)
    requires AcceptsClean(handle, consumer, rows) && AllClean(s.plans, rows)
    requires Rows(consumer, records) <= rows && AllReadable(records)
    ensures Partition.SafePrefix(handle, s, records).1 == |records|
    decreases |records|
  {
    if records != [] {
      assert Pipeline.KeyFor(records[0], consumer) in Rows(consumer, records);
      AcceptedWhole(handle, consumer, handle(s, records[0]).0, records[1..], rows);
    }
  }

  /** With clean plans every readable record is handled. */
  lemma CleanPrefixIsAll(consumer: string, s: Scene, records: seq<Record>, rows: set<Key>)
    requires AllClean(s.plans, rows) && Rows(consumer, records) <= rows && AllReadable(records)
    ensures Partition.SafePrefix(Handle(consumer), s, records).1 == |records|
  {
    CallsAccept(consumer, rows);
    AcceptedWhole(Handle(consumer), consumer, s, records, rows);
  }

  // ---------------------------------------------------------------- what handled records become

  /** No other session is at these rows during any of the calls. */
  predicate AllAway(plans: seq<H.Plan>, rows: set<Key>) {
    forall i :: 0 <= i < |plans| ==> plans[i].AwayFrom(rows)
  }

  lemma FirstPlan(plan: H.Plan, plans: seq<H.Plan>, rows: set<Key>)
    ensures PlanAt([plan] + plans, 0) == plan && Later([plan] + plans, 1) == plans
    ensures plan.AwayFrom(rows) && AllAway(plans, rows) ==> AllAway([plan] + plans, rows)
  {
  }

  /** The event of the record at `o` comes up again from `c` on. */
  predicate Recurs(consumer: string, log: seq<Record>, o: nat, c: nat)
    requires o < |log|
  {
    exists o' :: c <= o' < |log| && Pipeline.KeyFor(log[o'], consumer) == Pipeline.KeyFor(log[o], consumer)
  }

  /** The events of the records between `lo` and `c` are settled, but for those that come up again. */
  ghost predicate SettledBelow(consumer: string, t: Table, log: seq<Record>, lo: nat, c: nat) {
    forall o :: lo <= o < c && o < |log| ==>
      H.Settled(t, Pipeline.KeyFor(log[o], consumer)) || Recurs(consumer, log, o, c)
  }

  /** At the end of the log nothing comes up again. */
  lemma DrainedIsSettled(consumer: string, t: Table, log: seq<Record>, lo: nat)
    requires SettledBelow(consumer, t, log, lo, |log|)
    ensures forall o :: lo <= o < |log| ==> H.Settled(t, Pipeline.KeyFor(log[o], consumer))
  {
  }

  /** A call touches none of the rows but its record's, and settles that one if it returns true. */
  ghost predicate SettlesOwn(handle: Handler, consumer: string, rows: set<Key>, s: Scene, r: Record) {
    var (s', ok) := handle(s, r);
    && AllAway(s'.plans, rows)
    && (forall k :: k in rows && k != Pipeline.KeyFor(r, consumer) ==> SameRow(s.table, s'.table, k))
    && (ok ==> H.Settled(s'.table, Pipeline.KeyFor(r, consumer)))
  }

  ghost predicate AlwaysSettlesOwn(handle: Handler, consumer: string, rows: set<Key>) {
    forall s: Scene, r: Record ::
      AllAway(s.plans, rows) && Pipeline.KeyFor(r, consumer) in rows ==> SettlesOwn(handle, consumer, rows, s, r)
  }

  lemma SceneSettles(consumer: string, rows: set<Key>, s: Scene, r: Record)
    requires AllAway(s.plans, rows) && Pipeline.KeyFor(r, consumer) in rows
    ensures var (s', ok) := HandleScene(consumer, s, r);
            && AllAway(s'.plans, rows)
            && (forall k :: k in rows && k != Pipeline.KeyFor(r, consumer) ==> SameRow(s.table, s'.table, k))
            && (ok ==> H.Settled(s'.table, Pipeline.KeyFor(r, consumer)))
  {
    if Handleable(r.value) {
      var plan, k, ty := PlanAt(s.plans, 0), Pipeline.KeyFor(r, consumer), r.value.job.eventType;
      FewerRows(plan, rows, {k});
      H.CallSettles(s.table, k, ty, H.Ready, plan);
      forall k' | k' in rows && k' != k
        ensures SameRow(s.table, H.RunHandler(s.table, k, ty, H.Ready, plan).0, k')
      {
        FewerRows(plan, rows, {k'});
        H.TouchesOwnRow(s.table, k, ty, H.Ready, plan, k');
      }
    }
  }

  lemma CallsSettle(consumer: string, rows: set<Key>)
    ensures AlwaysSettlesOwn(Handle(consumer), consumer, rows)
  {
    forall s: Scene, r: Record | AllAway(s.plans, rows) && Pipeline.KeyFor(r, consumer) in rows
      ensures SettlesOwn(Handle(consumer), consumer, rows, s, r)
    {
      assert Handle(consumer)(s, r) == HandleScene(consumer, s, r);
      SceneSettles(consumer, rows, s, r);
    }
  }

  /** The key occurs among the first `n` records. */
  predicate Among(consumer: string, records: seq<Record>, n: nat, k: Key)
    requires n <= |records|
  {
    exists j :: 0 <= j < n && Pipeline.KeyFor(records[j], consumer) == k
  }

  lemma AmongSnoc(consumer: string, records: seq<Record>, n: nat, k: Key)
    requires n < |records|
    ensures Among(consumer, records, n + 1, k) <==>
            Among(consumer, records, n, k) || Pipeline.KeyFor(records[n], consumer) == k
  {
  }

  /** After calls that all returned true, the rows of their records are settled and the others unchanged. */
  lemma {:induction false} PrefixSettles(handle: Handler, consumer: string, rows: set<Key>, s: Scene,
                                         records: seq<Record>, n: nat, k: Key)
    requires AlwaysSettlesOwn(handle, consumer, rows) && AllAway(s.plans, rows) && n <= |records|
    requires Rows(consumer, records) <= rows && k in rows
    requires forall j :: 0 <= j < n ==> handle(Partition.Threaded(handle, s, records[..j]), records[j]).1
    ensures var s' := Partition.Threaded(handle, s, records[..n]);
            && AllAway(s'.plans, rows)
            && (if Among(consumer, records, n, k) then H.Settled(s'.table, k) else SameRow(s.table, s'.table, k))
  {
    if n > 0 {
      var before := Partition.Threaded(handle, s, records[..n - 1]);
      PrefixSettles(handle, consumer, rows, s, records, n - 1, k);
      Partition.ThreadedSnoc(handle, s, records, n - 1);
      assert Pipeline.KeyFor(records[n - 1], consumer) in Rows(consumer, records);
      assert SettlesOwn(handle, consumer, rows, before, records[n - 1]);
      var after := handle(before, records[n - 1]).0;
      assert Pipeline.KeyFor(records[n - 1], consumer) == k || SameRow(before.table, after.table, k);
      AmongSnoc(consumer, records, n - 1, k);
    }
  }

  /** The scene after a batch whose longest accepted prefix has length `n`. */
  function AfterBatch(handle: Handler, s: Scene, records: seq<Record>, n: nat): Scene
    requires n <= |records|
  {
    Partition.Threaded(handle, s, records[..if n < |records| then n + 1 else n])
  }

  /** The handler returned true on the first `n` records. */
  ghost predicate Accepts(handle: Handler, s: Scene, records: seq<Record>, n: nat) {
    n <= |records| && forall j :: 0 <= j < n ==> handle(Partition.Threaded(handle, s, records[..j]), records[j]).1
  }

  lemma NotAmong(consumer: string, log: seq<Record>, c: nat, count: nat, n: nat, o: nat)
    requires c + count <= |log| && n <= count && o < |log|
    requires !Among(consumer, log[c..c + count], n, Pipeline.KeyFor(log[o], consumer))
    ensures o < c || c + n <= o
    ensures Recurs(consumer, log, o, c) ==> Recurs(consumer, log, o, c + n)
  {
    var records, k := log[c..c + count], Pipeline.KeyFor(log[o], consumer);
    forall o' | c <= o' < c + n
      ensures Pipeline.KeyFor(log[o'], consumer) != k
    {
      assert records[o' - c] == log[o'];
    }
  }

  lemma PartRows(consumer: string, log: seq<Record>, c: nat, count: nat)
    requires c + count <= |log|
    ensures Rows(consumer, log[c..c + count]) <= Rows(consumer, log)
  {
  }

  /** The call that ends a batch leaves the rows of other records alone. */
  lemma LastCallKeeps(handle: Handler, consumer: string, rows: set<Key>, s: Scene, records: seq<Record>, n: nat, k: Key)
    requires AlwaysSettlesOwn(handle, consumer, rows) && Rows(consumer, records) <= rows && k in rows
    requires n <= |records| && AllAway(Partition.Threaded(handle, s, records[..n]).plans, rows)
    requires n < |records| ==> Pipeline.KeyFor(records[n], consumer) != k
    ensures SameRow(Partition.Threaded(handle, s, records[..n]).table, AfterBatch(handle, s, records, n).table, k)
  {
    if n < |records| {
      Partition.ThreadedSnoc(handle, s, records, n);
      assert Pipeline.KeyFor(records[n], consumer) in Rows(consumer, records);
      assert SettlesOwn(handle, consumer, rows, Partition.Threaded(handle, s, records[..n]), records[n]);
    }
  }

  /** One event: a poll that leaves it unsettled will meet it again. */
  lemma EventSettles(handle: Handler, consumer: string, s: Scene, log: seq<Record>, c: nat, count: nat, n: nat, c': nat,
                     o: nat)
    requires AlwaysSettlesOwn(handle, consumer, Rows(consumer, log)) && AllAway(s.plans, Rows(consumer, log))
    requires c + count <= |log| && Accepts(handle, s, log[c..c + count], n) && (c' == c || c' == c + n) && o < c'
    requires o < c ==> H.Settled(s.table, Pipeline.KeyFor(log[o], consumer)) || Recurs(consumer, log, o, c)
    ensures H.Settled(AfterBatch(handle, s, log[c..c + count], n).table, Pipeline.KeyFor(log[o], consumer)) ||
            Recurs(consumer, log, o, c')
  {
    var records, k := log[c..c + count], Pipeline.KeyFor(log[o], consumer);
    PartRows(consumer, log, c, count);
    PrefixSettles(handle, consumer, Rows(consumer, log), s, records, n, k);
    if n < count && Pipeline.KeyFor(records[n], consumer) == k {
      assert Pipeline.KeyFor(log[c + n], consumer) == k;
    } else {
      LastCallKeeps(handle, consumer, Rows(consumer, log), s, records, n, k);
      if !Among(consumer, records, n, k) {
        NotAmong(consumer, log, c, count, n, o);
      }
    }
  }

  lemma PollSettles(handle: Handler, consumer: string, s: Scene, log: seq<Record>, lo: nat, c: nat, count: nat, n: nat,
                    c': nat, t: Table)
    requires AlwaysSettlesOwn(handle, consumer, Rows(consumer, log)) && AllAway(s.plans, Rows(consumer, log))
    requires c + count <= |log| && Accepts(handle, s, log[c..c + count], n) && (c' == c || c' == c + n)
    requires SettledBelow(consumer, s.table, log, lo, c) && t == AfterBatch(handle, s, log[c..c + count], n).table
    ensures SettledBelow(consumer, t, log, lo, c')
  {
    forall o | lo <= o < c'
      ensures H.Settled(t, Pipeline.KeyFor(log[o], consumer)) || Recurs(consumer, log, o, c')
    {
      EventSettles(handle, consumer, s, log, c, count, n, c', o);
    }
  }

  predicate AllPollsAway(polls: seq<PollPlan>, rows: set<Key>) {
    forall i :: 0 <= i < |polls| ==> AllAway(polls[i].plans, rows)
  }

  // ---------------------------------------------------------------- the polls in turn

  /** The completions, the deliveries so far and the committed offset between two polls of one partition. */
  datatype Progress = Progress(table: Table, delivered: seq<Job>, offset: nat)

  /** How many records the poll fetches: those it asks for, as far as the log has them. */
  function Fetches(log: seq<Record>, offset: nat, poll: PollPlan): (n: nat)
    requires offset <= |log|
    ensures offset + n <= |log| && n <= poll.count
  {
    if poll.count <= |log| - offset then poll.count else |log| - offset
  }

  /** One poll from the committed offset on, for any handler: it handles its records with its own plans, and commits
      past the prefix that returned true. */
  function PollEnd(handle: Handler, log: seq<Record>, at: Progress, poll: PollPlan): (r: Progress)
    requires at.offset <= |log|
    ensures at.offset <= r.offset <= at.offset + Fetches(log, at.offset, poll)
  {
    var records := log[at.offset..at.offset + Fetches(log, at.offset, poll)];
    Partition.SafePrefixIsLongest(handle, Scene(at.table, at.delivered, poll.plans), records);
    var (scene, n) := Partition.SafePrefix(handle, Scene(at.table, at.delivered, poll.plans), records);
    Progress(scene.table, scene.delivered, if n == 0 || poll.commit.ErrLost? then at.offset else at.offset + n)
  }

  /** A poll whose handler accepted the first `n` records in turn, and no more. */
  lemma PrefixIsPollEnd(handle: Handler, log: seq<Record>, first: Scene, start: nat, records: seq<Record>,
                        poll: PollPlan, n: nat)
    requires start <= |log| && records == log[start..start + Fetches(log, start, poll)] && first.plans == poll.plans
    requires Accepts(handle, first, records, n)
    requires n < |records| ==> !handle(Partition.Threaded(handle, first, records[..n]), records[n]).1
    ensures var last := AfterBatch(handle, first, records, n);
            PollEnd(handle, log, Progress(first.table, first.delivered, start), poll) ==
            Progress(last.table, last.delivered, if n == 0 || poll.commit.ErrLost? then start else start + n)
  {
    Partition.OnlyLongestPrefix(handle, first, records, n);
  }

  function PollsEnd(handle: Handler, log: seq<Record>, at: Progress, polls: seq<PollPlan>): (r: Progress)
    requires at.offset <= |log|
    ensures at.offset <= r.offset <= |log|
    decreases |polls|
  {
    if polls == [] then at else PollsEnd(handle, log, PollEnd(handle, log, at, polls[0]), polls[1..])
  }

  lemma ReadablePart(log: seq<Record>, c: nat, count: nat)
    requires c + count <= |log| && AllReadable(log)
    ensures AllReadable(log[c..c + count])
  {
  }

  lemma PollEndAdvances(handle: Handler, consumer: string, log: seq<Record>, at: Progress, poll: PollPlan)
    requires AcceptsClean(handle, consumer, Rows(consumer, log))
    requires at.offset <= |log| && AllReadable(log) && !Troubled(poll, Rows(consumer, log))
    ensures PollEnd(handle, log, at, poll).offset == at.offset + Fetches(log, at.offset, poll)
  {
    var count := Fetches(log, at.offset, poll);
    ReadablePart(log, at.offset, count);
    PartRows(consumer, log, at.offset, count);
    AcceptedWhole(handle, consumer, Scene(at.table, at.delivered, poll.plans), log[at.offset..at.offset + count],
                  Rows(consumer, log));
  }

  /** A poll of readable records without trouble moves the offset past all that it fetches. */
  lemma UntroubledPollAdvances(consumer: string, log: seq<Record>, at: Progress, poll: PollPlan)
    requires at.offset <= |log| && AllReadable(log) && !Troubled(poll, Rows(consumer, log))
    ensures PollEnd(Handle(consumer), log, at, poll).offset == at.offset + Fetches(log, at.offset, poll)
  {
    CallsAccept(consumer, Rows(consumer, log));
    PollEndAdvances(Handle(consumer), consumer, log, at, poll);
  }

  /** The polls of a partition of readable records reach the end of the log once they are as many as there were
      records left plus troubled polls. */
  lemma {:induction false} PollsDrain(consumer: string, log: seq<Record>, at: Progress, polls: seq<PollPlan>)
    requires at.offset <= |log| && AllReadable(log) && forall i :: 0 <= i < |polls| ==> polls[i].count > 0
    ensures |polls| >= |log| - at.offset + TroubledPolls(polls, Rows(consumer, log)) ==>
              PollsEnd(Handle(consumer), log, at, polls).offset == |log|
    decreases |polls|
  {
    if polls != [] {
      if !Troubled(polls[0], Rows(consumer, log)) { UntroubledPollAdvances(consumer, log, at, polls[0]); }
      PollsDrain(consumer, log, PollEnd(Handle(consumer), log, at, polls[0]), polls[1..]);
    }
  }

  lemma PollEndSettles(handle: Handler, consumer: string, log: seq<Record>, at: Progress, poll: PollPlan, lo: nat)
    requires at.offset <= |log| && AllAway(poll.plans, Rows(consumer, log))
    requires AlwaysSettlesOwn(handle, consumer, Rows(consumer, log))
    requires SettledBelow(consumer, at.table, log, lo, at.offset)
    ensures var after := PollEnd(handle, log, at, poll); SettledBelow(consumer, after.table, log, lo, after.offset)
  {
    var c, count, first := at.offset, Fetches(log, at.offset, poll), Scene(at.table, at.delivered, poll.plans);
    var n, after := Partition.SafePrefix(handle, first, log[c..c + count]).1, PollEnd(handle, log, at, poll);
    Partition.SafePrefixIsLongest(handle, first, log[c..c + count]);
    PollSettles(handle, consumer, first, log, lo, c, count, n, after.offset, after.table);
  }

  /** With nobody else at the partition's rows, what a poll leaves below the offset is settled or comes up again. */
  lemma PollKeepsSettled(consumer: string, log: seq<Record>, at: Progress, poll: PollPlan, lo: nat)
    requires at.offset <= |log| && AllAway(poll.plans, Rows(consumer, log))
    requires SettledBelow(consumer, at.table, log, lo, at.offset)
    ensures var after := PollEnd(Handle(consumer), log, at, poll);
            SettledBelow(consumer, after.table, log, lo, after.offset)
  {
    CallsSettle(consumer, Rows(consumer, log));
    PollEndSettles(Handle(consumer), consumer, log, at, poll, lo);
  }

  lemma {:induction false} PollsKeepSettled(consumer: string, log: seq<Record>, at: Progress, polls: seq<PollPlan>,
                                            lo: nat)
    requires at.offset <= |log| && AllPollsAway(polls, Rows(consumer, log))
    requires SettledBelow(consumer, at.table, log, lo, at.offset)
    ensures var after := PollsEnd(Handle(consumer), log, at, polls);
            SettledBelow(consumer, after.table, log, lo, after.offset)
    decreases |polls|
  {
    if polls != [] {
      PollKeepsSettled(consumer, log, at, polls[0], lo);
      PollsKeepSettled(consumer, log, PollEnd(Handle(consumer), log, at, polls[0]), polls[1..], lo);
    }
  }

  // ---------------------------------------------------------------- a batch as the methods handle it

  /** The scene after the handler ran once on each of the first `i` records. */
  ghost function Through(handle: Handler, first: Scene, records: seq<Record>, i: nat): Scene
    requires i <= |records|
  {
    Partition.Threaded(handle, first, records[..i])
  }

  ghost predicate AnswersTrue(handle: Handler, first: Scene, records: seq<Record>, i: nat)
    requires i < |records|
  {
    handle(Through(handle, first, records, i), records[i]).1
  }

  /** The handler accepted the first `i` records in turn. */
  ghost predicate Accepted(handle: Handler, first: Scene, records: seq<Record>, i: nat) {
    i <= |records| && forall j :: 0 <= j < i ==> AnswersTrue(handle, first, records, j)
  }

  ghost predicate Refused(handle: Handler, first: Scene, records: seq<Record>, i: nat) {
    i < |records| && !AnswersTrue(handle, first, records, i)
  }

  /** `n` is the length of the longest prefix of the records that the handler accepts in turn. */
  ghost predicate Longest(handle: Handler, first: Scene, records: seq<Record>, n: nat) {
    Accepted(handle, first, records, n) && (n == |records| || Refused(handle, first, records, n))
  }

  /** How many calls the prefix rule makes: the handler also ran on the record that ended the prefix. */
  ghost function CallsMade(records: seq<Record>, n: nat): nat {
    if n < |records| then n + 1 else n
  }

  /** So a poll whose handler accepted that prefix ends as the prefix rule defines. */
  lemma LongestIsPollEnd(handle: Handler, log: seq<Record>, first: Scene, start: nat, records: seq<Record>,
                         poll: PollPlan, next: nat, last: Scene)
    requires start <= |log| && records == log[start..start + Fetches(log, start, poll)] && first.plans == poll.plans
    requires start <= next && Longest(handle, first, records, next - start)
    requires last == Through(handle, first, records, CallsMade(records, next - start))
    ensures PollEnd(handle, log, Progress(first.table, first.delivered, start), poll) ==
            Progress(last.table, last.delivered, if next == start || poll.commit.ErrLost? then start else next)
  {
    forall j | 0 <= j < next - start
      ensures handle(Partition.Threaded(handle, first, records[..j]), records[j]).1
    {
      assert AnswersTrue(handle, first, records, j);
    }
    PrefixIsPollEnd(handle, log, first, start, records, poll, next - start);
  }

  class Process {
    const pg: Postgres
    const kafka: Kafka
    const downstream: Downstream.Client
    const consumer: string

    constructor (pg: Postgres, kafka: Kafka, downstream: Downstream.Client, consumer: string)
      ensures this.pg == pg && this.kafka == kafka && this.downstream == downstream && this.consumer == consumer
    {
      this.pg, this.kafka, this.downstream, this.consumer := pg, kafka, downstream, consumer;
    }

    ghost function Now(plans: seq<H.Plan>): Scene
      reads pg, downstream
    {
      Scene(pg.completions, downstream.delivered, plans)
    }

    method Mark(k: Key, job: Job, err: Option<Downstream.Error>, plan: H.Plan) returns (ok: bool)
      modifies pg`completions
      ensures (pg.completions, ok, false) ==
              H.RunHandler(old(pg.completions), k, job.eventType,
                           if err.None? then H.GotOk else H.GotError(err.value), plan)
    {
      pg.OtherStatements(plan.beforeMark);
      if err.Some? {
        var marked := pg.MarkConsumerFailed(k, Downstream.Text(err.value), plan.mark);
        if marked.Err? {
          return false;
        }
        return !Downstream.IsRetryable(err.value);
      }
      var updated := pg.MarkConsumerProcessed(k, plan.mark);
      if updated.Err? {
        return false;
      }
      return updated.value;
    }

    /** `handleJob` and the mark that its verdict calls for. */
    method DeliverAndMark(k: Key, job: Job, ghost claim: Claim, plan: H.Plan) returns (ok: bool)
      modifies pg`completions, downstream
      ensures (pg.completions, ok, true) == H.RunHandler(old(pg.completions), k, job.eventType, H.Granted(claim), plan)
      ensures downstream.delivered == old(downstream.delivered) + [job]
    {
      H.RunHandlerFromGrant(pg.completions, k, job.eventType, claim, plan);
      pg.OtherStatements(plan.beforeCall);
      pg.OtherStatements(plan.beforeAnswer);
      var err := downstream.HandleJob(job, plan.transport);
      ok := Mark(k, job, err, plan);
    }

    /** `handleRecord` from the claim on. */
    method HandleJobRecord(job: Job, plan: H.Plan) returns (ok: bool, ghost called: bool)
      modifies pg`completions, downstream
      ensures (pg.completions, ok, called) ==
              H.RunHandler(old(pg.completions), Key(job.stripeEventId, consumer), job.eventType, H.Ready, plan)
      ensures downstream.delivered == if called then old(downstream.delivered) + [job] else old(downstream.delivered)
    {
      var k := Key(job.stripeEventId, consumer);
      ghost var t := pg.completions;
      var claim := pg.ClaimConsumerCompletion(k, job.eventType, plan);
      H.AfterClaim(t, k, job.eventType, plan, pg.completions, claim);
      if claim.Err? {
        return false, false;
      }
      if claim.value.action.AlreadyProcessed? {
        return true, false;
      }
      ok := DeliverAndMark(k, job, claim.value, plan);
      called := true;
    }

    /** `handleRecord`. True is only returned with the row processed or failed, and failed only with a
        non-retryable verdict on a delivery this very call made; without trouble it is always returned, whatever
        others do at other rows meanwhile. After a 2xx it is returned if and only if this call's own mark found the
        row processing and reported no error. */
    method HandleRecord(r: Record, plan: H.Plan) returns (ok: bool)
      modifies pg`completions, downstream
      ensures forall later :: (Now(later), ok) == HandleScene(consumer, old(Now([plan] + later)), r)
      ensures !Handleable(r.value) ==> !ok && pg.completions == old(pg.completions)
      ensures ok ==> var k := Key(r.value.job.stripeEventId, consumer);
                     && (IsProcessed(pg.completions, k) || IsFailed(pg.completions, k))
                     && (IsProcessed(pg.completions, k) ||
                         (Downstream.Verdict(plan.transport).Some? &&
                          !Downstream.IsRetryable(Downstream.Verdict(plan.transport).value) &&
                          downstream.delivered == old(downstream.delivered) + [r.value.job]))
      ensures Handleable(r.value) && plan.Clean({Pipeline.KeyFor(r, consumer)}) ==> ok
      ensures downstream.delivered != old(downstream.delivered) ==>
                var k := Key(r.value.job.stripeEventId, consumer);
                var at := H.AtMark(old(pg.completions), k, r.value.job.eventType, plan);
                && Handleable(r.value) && downstream.delivered == old(downstream.delivered) + [r.value.job]
                && (pg.completions, ok) == H.Marked(at, k, Downstream.Verdict(plan.transport), plan.mark)
                && (Downstream.Verdict(plan.transport).None? ==>
                      (ok <==> plan.mark.NoFault? && H.RowIs(at, k, Processing)))
    {
      if r.value.Garbage? {
        return false;
      }
      var job := r.value.job;
      if job.stripeEventId == "" {
        return false;
      }
      var k := Key(job.stripeEventId, consumer);
      ghost var t0, d0 := pg.completions, downstream.delivered;
      ghost var called;
      ok, called := HandleJobRecord(job, plan);
      H.HandledMeans(t0, k, job.eventType, H.Ready, plan);
      if called { H.DeliveredCallMarks(t0, k, job.eventType, plan); }
      if plan.Clean({k}) {
        H.CleanHandled(t0, k, job.eventType, H.Ready, plan);
      }
      forall later
        ensures (Now(later), ok) == HandleScene(consumer, Scene(t0, d0, [plan] + later), r)
      {
        var plans := [plan] + later;
        assert PlanAt(plans, 0) == plan && Later(plans, 1) == later;
      }
    }

    /** The handler's call on the record at position `i` of a batch. */
    method HandleNth(ghost first: Scene, records: seq<Record>, plans: seq<H.Plan>, i: nat) returns (ok: bool)
      requires i < |records| && Accepted(Handle(consumer), first, records, i)
      requires Now(Later(plans, i)) == Through(Handle(consumer), first, records, i)
      modifies pg`completions, downstream
      ensures Now(Later(plans, i + 1)) == Through(Handle(consumer), first, records, i + 1)
      ensures if ok then Accepted(Handle(consumer), first, records, i + 1)
              else Refused(Handle(consumer), first, records, i)
    {
      ghost var plan, later := PlanAt(plans, i), Later(plans, i + 1);
      assert PlanAt(Later(plans, i), 0) == plan == PlanAt([plan] + later, 0);
      assert Later(Later(plans, i), 1) == later == Later([plan] + later, 1);
      Partition.ThreadedSnoc(Handle(consumer), first, records, i);
      ok := HandleRecord(records[i], PlanAt(plans, i));
    }

    /** `recordsSafeToCommit` with `handleRecord` as its handler: the longest accepted prefix, and the store
        and the deliveries as its calls leave them. */
    method RecordsSafeToCommit(records: seq<Record>, plans: seq<H.Plan>) returns (committed: seq<Record>)
      modifies pg`completions, downstream
      ensures var first, n := old(Now(plans)), |committed|;
              && Longest(Handle(consumer), first, records, n) && committed == records[..n]
              && var made := CallsMade(records, n);
                 Now(Later(plans, made)) == Through(Handle(consumer), first, records, made)
    {
      ghost var first := Now(plans);
      var i := 0;
      committed := [];
      assert Later(plans, 0) == plans;
      while i < |records|
        invariant i <= |records| && committed == records[..i]
        invariant Accepted(Handle(consumer), first, records, i)
        invariant Now(Later(plans, i)) == Through(Handle(consumer), first, records, i)
      {
        var ok := HandleNth(first, records, plans, i);
        if !ok {
          return;
        }
        TakeSnoc(records, i);
        committed := committed + [records[i]];
        i := i + 1;
      }
    }

    /** One fetched batch of one partition: handle, then commit the returned prefix. */
    method PollOnce(p: nat, start: nat, poll: PollPlan) returns (next: nat)
      requires start + poll.count <= |Pipeline.Log(kafka.log, p)|
      modifies pg`completions, downstream, kafka`committed
      ensures start <= next
      ensures var records := Pipeline.Log(kafka.log, p)[start..start + poll.count];
              var first, n := old(Now(poll.plans)), next - start;
              && Longest(Handle(consumer), first, records, n)
              && (var made := CallsMade(records, n);
                  Now(Later(poll.plans, made)) == Through(Handle(consumer), first, records, made))
              && kafka.committed == (if n == 0 || poll.commit.ErrLost? then old(kafka.committed)
                                     else old(kafka.committed)[Pipeline.Slot(consumer, p) := next])
    {
      var records := kafka.Fetch(p, start, poll.count);
      var committed := RecordsSafeToCommit(records, poll.plans);
      next := start + |committed|;
      if |committed| > 0 {
        var _ := kafka.CommitRecords(Pipeline.Slot(consumer, p), start, committed, poll.commit);
      }
    }

    /** The completion rows of the partition's records. */
    ghost function RowsOf(p: nat): set<Key>
      reads kafka`log
    {
      Rows(consumer, Pipeline.Log(kafka.log, p))
    }

    ghost function ProgressOn(p: nat): Progress
      reads pg, kafka, downstream
    {
      Progress(pg.completions, downstream.delivered,
               Pipeline.Committed(kafka.committed, Pipeline.Slot(consumer, p)))
    }

    /** One poll that starts at the committed offset. */
    method PollFromCommitted(p: nat, poll: PollPlan)
      requires ProgressOn(p).offset <= |Pipeline.Log(kafka.log, p)|
      modifies pg`completions, downstream, kafka`committed
      ensures ProgressOn(p) == PollEnd(Handle(consumer), Pipeline.Log(kafka.log, p), old(ProgressOn(p)), poll)
      ensures forall slot :: slot != Pipeline.Slot(consumer, p) ==>
                (slot in kafka.committed <==> slot in old(kafka.committed)) &&
                (slot in kafka.committed ==> kafka.committed[slot] == old(kafka.committed)[slot])
    {
      ghost var first, log := Now(poll.plans), Pipeline.Log(kafka.log, p);
      var start := Pipeline.Committed(kafka.committed, Pipeline.Slot(consumer, p));
      var count := Fetches(Pipeline.Log(kafka.log, p), start, poll);
      var next := PollOnce(p, start, poll.(count := count));
      ghost var records := log[start..start + count];
      ghost var made := CallsMade(records, next - start);
      LongestIsPollEnd(Handle(consumer), log, first, start, records, poll, next, Now(Later(poll.plans, made)));
    }

    /** The poll loop on a partition, each poll starting at the offset that the last one has committed: store,
        deliveries and offset are those of the polls in turn, each with its own plans and its own commit. If all
        records can be read, a poll without trouble advances the offset, so the loop reaches the end of the log
        once it has made as many polls as there were records left plus troubled polls. With nobody else at
        the rows of this partition's records, each event below the offset is settled or comes up again, so at the
        end of the log each event it drained is processed, or failed with a verdict that is final. In both halves
        other sessions may do what they like at other rows, those of other partitions and groups. */
    method PollLoop(p: nat, polls: seq<PollPlan>)
      requires ProgressOn(p).offset <= |Pipeline.Log(kafka.log, p)|
      modifies pg`completions, downstream, kafka`committed
      ensures ProgressOn(p) == PollsEnd(Handle(consumer), Pipeline.Log(kafka.log, p), old(ProgressOn(p)), polls)
      ensures forall slot :: slot != Pipeline.Slot(consumer, p) ==>
                (slot in kafka.committed <==> slot in old(kafka.committed)) &&
                (slot in kafka.committed ==> kafka.committed[slot] == old(kafka.committed)[slot])
      ensures AllReadable(Pipeline.Log(kafka.log, p)) && (forall i :: 0 <= i < |polls| ==> polls[i].count > 0) ==>
                var end := |Pipeline.Log(kafka.log, p)|;
                |polls| >= end - old(ProgressOn(p).offset) + TroubledPolls(polls, RowsOf(p)) ==>
                  ProgressOn(p).offset == end
      ensures AllPollsAway(polls, RowsOf(p)) ==>
                var log, first := Pipeline.Log(kafka.log, p), old(ProgressOn(p).offset);
                && SettledBelow(consumer, pg.completions, log, first, ProgressOn(p).offset)
                && (ProgressOn(p).offset == |log| ==>
                      forall o :: first <= o < |log| ==>
                        H.Settled(pg.completions, Pipeline.KeyFor(log[o], consumer)))
    {
      ghost var at, log := ProgressOn(p), Pipeline.Log(kafka.log, p);
      var i := 0;
      while i < |polls|
        invariant i <= |polls| && ProgressOn(p).offset <= |log|
        invariant PollsEnd(Handle(consumer), log, ProgressOn(p), polls[i..]) ==
                  PollsEnd(Handle(consumer), log, at, polls)
        invariant forall slot :: slot != Pipeline.Slot(consumer, p) ==>
                    (slot in kafka.committed <==> slot in old(kafka.committed)) &&
                    (slot in kafka.committed ==> kafka.committed[slot] == old(kafka.committed)[slot])
      {
        assert polls[i..][1..] == polls[i + 1..];
        PollFromCommitted(p, polls[i]);
        i := i + 1;
      }
      if AllReadable(log) && forall i :: 0 <= i < |polls| ==> polls[i].count > 0 {
        PollsDrain(consumer, log, at, polls);
      }
      if AllPollsAway(polls, RowsOf(p)) {
        PollsKeepSettled(consumer, log, at, polls, at.offset);
        if ProgressOn(p).offset == |log| {
          DrainedIsSettled(consumer, pg.completions, log, at.offset);
        }
      }
    }
  }
}
