/** `recordsSafeToCommit` for any handler that changes state (cmd/worker/partition.go). */
module Partition {

  /** The handler called on the records in turn, stopping at the first false: the final state and the
      number of records returned as safe. */
  function SafePrefix<S, R>(handle: (S, R) -> (S, bool), s: S, records: seq<R>): (S, nat)
    decreases |records|
  {
    if records == [] then (s, 0) else
    var (s', ok) := handle(s, records[0]);
    if !ok then (s', 0) else
    var rest := SafePrefix(handle, s', records[1..]);
    (rest.0, rest.1 + 1)
  }

  /** The state after the handler was called once on each of the records in order. */
  function Threaded<S, R>(handle: (S, R) -> (S, bool), s: S, records: seq<R>): S
    decreases |records|
  {
    if records == [] then s else Threaded(handle, handle(s, records[0]).0, records[1..])
  }

  lemma {:induction false} ThreadedSnoc<S, R>(handle: (S, R) -> (S, bool), s: S, records: seq<R>, i: nat)
    requires i < |records|
    ensures Threaded(handle, s, records[..i + 1]) == handle(Threaded(handle, s, records[..i]), records[i]).0
    decreases i
  {
    if i == 0 {
      assert records[..1][1..] == [];
    } else {
      ThreadedSnoc(handle, handle(s, records[0]).0, records[1..], i - 1);
      assert records[..i + 1][1..] == records[1..][..i] && records[..i][1..] == records[1..][..i - 1];
    }
  }

  /** The result is exactly the longest prefix on which successive calls return true; the handler ran once
      on each record of it, in order, and once on the record that ended it, if any, and on no other. */
  lemma {:induction false} SafePrefixIsLongest<S, R>(handle: (S, R) -> (S, bool), s: S, records: seq<R>)
    ensures var (s', n) := SafePrefix(handle, s, records);
            && n <= |records|
            && (forall i :: 0 <= i < n ==> handle(Threaded(handle, s, records[..i]), records[i]).1)
            && (n < |records| ==> !handle(Threaded(handle, s, records[..n]), records[n]).1)
            && s' == Threaded(handle, s, records[..if n < |records| then n + 1 else n])
    decreases |records|
  {
    if records != [] {
      var s1 := handle(s, records[0]).0;
      SafePrefixIsLongest(handle, s1, records[1..]);
      forall i | 0 < i <= |records|
        ensures Threaded(handle, s, records[..i]) == Threaded(handle, s1, records[1..][..i - 1])
      {
        assert records[..i][1..] == records[1..][..i - 1];
      }
    }
  }

  /** Those facts leave no other result. */
  lemma OnlyLongestPrefix<S, R>(handle: (S, R) -> (S, bool), s: S, records: seq<R>, n: nat)
    requires n <= |records|
    requires forall i :: 0 <= i < n ==> handle(Threaded(handle, s, records[..i]), records[i]).1
    requires n < |records| ==> !handle(Threaded(handle, s, records[..n]), records[n]).1
    ensures SafePrefix(handle, s, records) ==
            (Threaded(handle, s, records[..if n < |records| then n + 1 else n]), n)
  {
    SafePrefixIsLongest(handle, s, records);
    var m := SafePrefix(handle, s, records).1;
    assert !(m < n) && !(n < m);
  }
}
