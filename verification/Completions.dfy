/** The `consumer_completions` table: its SQL statements, and what every history of them keeps
    (internal/store/postgres.go:217-321, migrations/00003_consumer_completions.sql). */
module Completions {
  import opened Engine

  datatype Status = Processing | Processed | Failed

  datatype Row = Row(eventType: string, status: Status, error: Option<string>, attempts: nat)

  datatype Key = Key(event: string, consumer: string)

  type Table = map<Key, Row>

  /** The five writes, each one atomic statement. */
  datatype Statement =
    | Insert(key: Key, eventType: string)
    | Bump(key: Key)
    | Reclaim(key: Key)
    | MarkProcessed(key: Key)
    | MarkFailed(key: Key, msg: string)

  /** Whether the statement affects a row. */
  predicate Matches(t: Table, q: Statement) {
    match q
    case Insert(k, _) => k !in t
    case Bump(k) => k in t && t[k].status.Processing?
    case Reclaim(k) => k in t && t[k].status.Failed?
    case MarkProcessed(k) => k in t && t[k].status.Processing?
    case MarkFailed(k, _) => k in t && t[k].status.Processing?
  }

  function Exec(t: Table, q: Statement): Table {
    if !Matches(t, q) then t else
    match q
    case Insert(k, ty) => t[k := Row(ty, Processing, None, 1)]
    case Bump(k) => t[k := t[k].(attempts := t[k].attempts + 1)]
    case Reclaim(k) => t[k := t[k].(status := Processing, error := None, attempts := t[k].attempts + 1)]
    case MarkProcessed(k) => t[k := t[k].(status := Processed, error := None)]
    case MarkFailed(k, msg) => t[k := t[k].(status := Failed, error := Some(msg))]
  }

  function ExecAll(t: Table, qs: seq<Statement>): Table {
    if qs == [] then t else Exec(ExecAll(t, qs[..|qs| - 1]), qs[|qs| - 1])
  }

  predicate IsProcessed(t: Table, k: Key) {
    k in t && t[k].status.Processed?
  }

  predicate IsFailed(t: Table, k: Key) {
    k in t && t[k].status.Failed?
  }

  predicate SameRow(t: Table, t': Table, k: Key) {
    (k in t' <==> k in t) && (k in t ==> t'[k] == t[k])
  }

  /** None of the statements is at one of these rows. */
  predicate Avoid(qs: seq<Statement>, rows: set<Key>) {
    forall i :: 0 <= i < |qs| ==> qs[i].key !in rows
  }

  lemma {:induction false} AvoidedStays(t: Table, qs: seq<Statement>, rows: set<Key>, k: Key)
    requires Avoid(qs, rows) && k in rows
    ensures SameRow(t, ExecAll(t, qs), k)
  {
    if qs != [] {
      AvoidedStays(t, qs[..|qs| - 1], rows, k);
    }
  }

  // ---------------------------------------------------------------- the claim, in one step

  datatype ClaimAction = New | Retry | RetryFromFailed | AlreadyProcessed

  datatype Claim = Claim(action: ClaimAction, attempts: nat)

  /** What `ClaimConsumerCompletion` would do if it were a single statement. */
  function AtomicClaim(t: Table, k: Key, ty: string): (Table, Claim) {
    if k !in t then
      (t[k := Row(ty, Processing, None, 1)], Claim(New, 1))
    else
      var row := t[k];
      match row.status
      case Processed => (t, Claim(AlreadyProcessed, row.attempts))
      case Processing =>
        (t[k := row.(attempts := row.attempts + 1)], Claim(Retry, row.attempts + 1))
      case Failed =>
        (t[k := row.(status := Processing, error := None, attempts := row.attempts + 1)],
         Claim(RetryFromFailed, row.attempts + 1))
  }

  // ---------------------------------------------------------------- conservation over histories

  datatype Kind = ClaimWrite | FailedReclaim | ProcessedMark | FailedMark

  predicate OfKind(q: Statement, kind: Kind) {
    match kind
    case ClaimWrite => q.Insert? || q.Bump? || q.Reclaim?
    case FailedReclaim => q.Reclaim?
    case ProcessedMark => q.MarkProcessed?
    case FailedMark => q.MarkFailed?
  }

  /** How many statements of the kind took effect on row `k` in a history from the empty table. */
  function Hits(qs: seq<Statement>, k: Key, kind: Kind): nat {
    if qs == [] then 0 else
    var before, q := qs[..|qs| - 1], qs[|qs| - 1];
    Hits(before, k, kind) +
    (if q.key == k && OfKind(q, kind) && Matches(ExecAll(map[], before), q) then 1 else 0)
  }

  /** Whoever issues the statements and however they interleave: an attempt is exactly a claim write
      that took effect, every failed mark but the current one was reclaimed, processed is marked
      at most once, and an error is stored exactly while the row is failed. */
  lemma {:induction false} Conservation(qs: seq<Statement>, k: Key)
    ensures var t := ExecAll(map[], qs);
            && Hits(qs, k, ClaimWrite) == (if k in t then t[k].attempts else 0)
            && Hits(qs, k, FailedMark) == Hits(qs, k, FailedReclaim) + (if IsFailed(t, k) then 1 else 0)
            && Hits(qs, k, ProcessedMark) == (if IsProcessed(t, k) then 1 else 0)
            && (k in t ==> t[k].attempts >= 1 && (t[k].error.Some? <==> t[k].status.Failed?))
  {
    if qs != [] {
      Conservation(qs[..|qs| - 1], k);
    }
  }

  /** Processed is absorbing: no later statement changes anything in the row. */
  lemma {:induction false} ProcessedAbsorbs(t: Table, qs: seq<Statement>, k: Key)
    requires IsProcessed(t, k)
    ensures IsProcessed(ExecAll(t, qs), k) && ExecAll(t, qs)[k] == t[k]
  {
    if qs != [] {
      ProcessedAbsorbs(t, qs[..|qs| - 1], k);
    }
  }

  /** Rows are never deleted and attempts never decrease. */
  lemma {:induction false} RowsPersist(t: Table, qs: seq<Statement>, k: Key)
    requires k in t
    ensures k in ExecAll(t, qs) && ExecAll(t, qs)[k].attempts >= t[k].attempts
  {
    if qs != [] {
      RowsPersist(t, qs[..|qs| - 1], k);
    }
  }

  lemma {:induction false} ExecAllConcat(t: Table, a: seq<Statement>, b: seq<Statement>)
    ensures ExecAll(t, a + b) == ExecAll(ExecAll(t, a), b)
  {
    if b == [] {
      assert a + b == a;
    } else {
      assert (a + b)[..|a + b| - 1] == a + b[..|b| - 1];
      ExecAllConcat(t, a, b[..|b| - 1]);
    }
  }
}
