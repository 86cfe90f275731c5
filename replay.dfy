/**
  Sequences of `update_accumulator` calls, replayed one after another as the
  runtime executes them, and what they do to one attester's log.
 */
module Replay {
  import opened Portablegabi

  /** One dispatched call: the authenticated attester and its payload. */
  datatype Call<A> = Call(attester: A, accumulator: seq<Byte>)

  /** The storage after executing `calls` in order from `s`; a failed call leaves it as it was. */
  function Run<A(==)>(s: Ledger<A>, calls: seq<Call<A>>): Ledger<A>
    decreases |calls|
  {
    if calls == [] then s
    else Run(Update(s, calls[0].attester, calls[0].accumulator).1, calls[1..])
  }

  /** The result of each call when `calls` are executed in order from `s`. */
  function Results<A(==)>(s: Ledger<A>, calls: seq<Call<A>>): seq<DispatchResult>
    decreases |calls|
  {
    if calls == [] then []
    else
      var r := Update(s, calls[0].attester, calls[0].accumulator);
      [r.0] + Results(r.1, calls[1..])
  }

  /** The payload that `a` submits in call `c`, if `c` is a call by `a`. */
  function Own<A(==)>(c: Call<A>, a: A): seq<seq<Byte>> {
    if c.attester == a then [c.accumulator] else []
  }

  /** The payloads that `a` submits in `calls`, in order. */
  function Payloads<A(==)>(calls: seq<Call<A>>, a: A): seq<seq<Byte>>
    decreases |calls|
  {
    if calls == [] then [] else Own(calls[0], a) + Payloads(calls[1..], a)
  }

  /**
    The log of attester `a`: slots 0 .. count - 1, in index order. For a
    dense attester every one of these slots is present.
   */
  ghost function Log<A>(s: Ledger<A>, a: A): seq<seq<Byte>> {
    seq(CountOf(s.count, a), k requires 0 <= k < CountOf(s.count, a) =>
      if (a, k) in s.list then s.list[(a, k)] else [])
  }

  /** Entry k of the log is the accumulator stored in slot (a, k). */
  lemma LogAt<A>(s: Ledger<A>, a: A, k: U64)
    requires k < CountOf(s.count, a) && (a, k) in s.list
    ensures k < |Log(s, a)| && Log(s, a)[k] == s.list[(a, k)]
  {
  }

  /** At genesis every attester is dense with an empty log. */
  lemma GenesisDense<A>(a: A)
    ensures Dense(Genesis(), a) && Log(Genesis(), a) == []
  {
  }

  /**
    A call by a dense attester whose counter is below u64::MAX succeeds and
    appends its payload to the attester's log.
   */
  lemma UpdateAppendsToLog<A>(s: Ledger<A>, a: A, acc: seq<Byte>)
    requires Dense(s, a) && CountOf(s.count, a) < U64_MAX
    ensures Update(s, a, acc).0 == Ok
    ensures Dense(Update(s, a, acc).1, a)
    ensures Log(Update(s, a, acc).1, a) == Log(s, a) + [acc]
  {
    DenseNeverInconsistent(s, a, acc);
    UpdatePreservesDense(s, a, acc, a);
    var s' := Update(s, a, acc).1;
    var c := CountOf(s.count, a);
    forall k | 0 <= k < c + 1
      ensures Log(s', a)[k] == (Log(s, a) + [acc])[k]
    {
      if k < c {
        assert (a, k) != (a, c);
      }
    }
  }

  /** A call by another attester, whatever its outcome, leaves `a`'s log alone. */
  lemma UpdateKeepsOtherLog<A>(s: Ledger<A>, b: A, acc: seq<Byte>, a: A)
    requires Dense(s, a) && b != a
    ensures Dense(Update(s, b, acc).1, a)
    ensures Log(Update(s, b, acc).1, a) == Log(s, a)
  {
    UpdatePreservesDense(s, b, acc, a);
    var s' := Update(s, b, acc).1;
    forall k: U64 | k < CountOf(s.count, a)
      ensures Log(s', a)[k] == Log(s, a)[k]
    {
      assert (a, k) != (b, CountOf(s.count, b));
    }
  }

  /** One call, by `a` or by anyone else, adds to `a`'s log exactly what `a` submitted in it. */
  lemma StepLog<A>(s: Ledger<A>, c: Call<A>, a: A)
    requires Dense(s, a)
    requires c.attester == a ==> CountOf(s.count, a) < U64_MAX
    ensures Dense(Update(s, c.attester, c.accumulator).1, a)
    ensures Log(Update(s, c.attester, c.accumulator).1, a) == Log(s, a) + Own(c, a)
  {
    if c.attester == a {
      UpdateAppendsToLog(s, a, c.accumulator);
    } else {
      UpdateKeepsOtherLog(s, c.attester, c.accumulator, a);
    }
  }

  /**
    Replaying calls from a state where `a` is dense appends exactly `a`'s own
    payloads, in submission order, to `a`'s log, provided its count stays
    within u64.
   */
  lemma {:induction false} RunAppendsPayloads<A>(s: Ledger<A>, calls: seq<Call<A>>, a: A)
    requires Dense(s, a)
    requires CountOf(s.count, a) + |Payloads(calls, a)| <= U64_MAX
    ensures Dense(Run(s, calls), a)
    ensures Log(Run(s, calls), a) == Log(s, a) + Payloads(calls, a)
    decreases |calls|
  {
    if calls != [] {
      var s', rest := Update(s, calls[0].attester, calls[0].accumulator).1, calls[1..];
      assert Run(s, calls) == Run(s', rest);
      StepLog(s, calls[0], a);
      RunAppendsPayloads(s', rest, a);
      calc {
        Log(Run(s, calls), a);
        Log(Run(s', rest), a);
        Log(s', a) + Payloads(rest, a);
        (Log(s, a) + Own(calls[0], a)) + Payloads(rest, a);
        Log(s, a) + (Own(calls[0], a) + Payloads(rest, a));
        { assert Payloads(calls, a) == Own(calls[0], a) + Payloads(rest, a); }
        Log(s, a) + Payloads(calls, a);
      }
    }
  }

  /**
    Index assignment from genesis: the k-th payload `a` submits is stored at
    index k, the count equals the number of `a`'s calls, and no slot of `a`
    at or beyond that count is present.
   */
  lemma IndexAssignment<A>(calls: seq<Call<A>>, a: A)
    requires |Payloads(calls, a)| <= U64_MAX
    ensures var s := Run(Genesis(), calls);
      && CountOf(s.count, a) == |Payloads(calls, a)|
      && (forall k: U64 :: k < |Payloads(calls, a)| ==> (a, k) in s.list && s.list[(a, k)] == Payloads(calls, a)[k])
      && (forall k: U64 :: k >= |Payloads(calls, a)| ==> (a, k) !in s.list)
  {
    GenesisDense(a);
    RunAppendsPayloads(Genesis(), calls, a);
    var s := Run(Genesis(), calls);
    forall k: U64 | k < |Payloads(calls, a)|
      ensures (a, k) in s.list && s.list[(a, k)] == Payloads(calls, a)[k]
    {
      LogAt(s, a, k);
    }
  }

  /** An attester that never called has count 0 and no stored accumulator. */
  lemma NeverAppendedHasZeroCount<A>(calls: seq<Call<A>>, a: A)
    requires forall c :: c in calls ==> c.attester != a
    ensures var s := Run(Genesis(), calls);
      && CountOf(s.count, a) == 0
      && (forall k: U64 :: (a, k) !in s.list)
  {
    NoCallsNoPayloads(calls, a);
    IndexAssignment(calls, a);
  }

  /** An attester with no call in `calls` submits no payload there. */
  lemma {:induction false} NoCallsNoPayloads<A>(calls: seq<Call<A>>, a: A)
    requires forall c :: c in calls ==> c.attester != a
    ensures Payloads(calls, a) == []
    decreases |calls|
  {
    if calls != [] {
      assert calls[0] in calls;
      NoCallsNoPayloads(calls[1..], a);
    }
  }

  /**
    One call from a state where every attester is dense and has room for
    n + 1 more appends: it returns `Ok`, every attester stays dense with room
    for n more, only the caller's count moves (by one), and exactly the event
    `Updated(caller, new count, payload)` is deposited.
   */
  lemma StepSucceeds<A>(s: Ledger<A>, c: Call<A>, n: nat)
    requires forall b :: Dense(s, b)
    requires forall b :: CountOf(s.count, b) + n + 1 <= U64_MAX
    ensures var r := Update(s, c.attester, c.accumulator);
      && r.0 == Ok
      && (forall b :: Dense(r.1, b))
      && (forall b :: CountOf(r.1.count, b) == CountOf(s.count, b) + |Own(c, b)|)
      && (forall b :: CountOf(r.1.count, b) + n <= U64_MAX)
      && r.1.events == s.events + [Updated(c.attester, CountOf(s.count, c.attester) + 1, c.accumulator)]
  {
    var s' := Update(s, c.attester, c.accumulator).1;
    DenseNeverInconsistent(s, c.attester, c.accumulator);
    UpdateSuccess(s, c.attester, c.accumulator);
    UpdateFrame(s, c.attester, c.accumulator);
    forall b
      ensures Dense(s', b)
    {
      UpdatePreservesDense(s, c.attester, c.accumulator, b);
    }
  }

  /**
    Under the same conditions every call of a replay returns `Ok`, and the
    event log grows by exactly one event per call, keeping the earlier ones.
   */
  lemma {:induction false} RunAllSucceed<A>(s: Ledger<A>, calls: seq<Call<A>>)
    requires forall b :: Dense(s, b)
    requires forall b :: CountOf(s.count, b) + |calls| <= U64_MAX
    ensures |Results(s, calls)| == |calls|
    ensures forall j :: 0 <= j < |calls| ==> Results(s, calls)[j] == Ok
    ensures |Run(s, calls).events| == |s.events| + |calls|
    ensures Run(s, calls).events[..|s.events|] == s.events
    decreases |calls|
  {
    if calls != [] {
      var s', rest := Update(s, calls[0].attester, calls[0].accumulator).1, calls[1..];
      StepSucceeds(s, calls[0], |rest|);
      RunAllSucceed(s', rest);
      assert Run(s, calls) == Run(s', rest);
      assert Results(s, calls) == [Ok] + Results(s', rest);
      var e := Run(s', rest).events;
      assert e[..|s.events|] == e[..|s'.events|][..|s.events|];
    }
  }

  /**
    The j-th call of such a replay deposits `Updated(attester, count,
    payload)` for its own attester and payload, where count is that
    attester's count before the replay plus its number of calls among the
    first j + 1.
   */
  lemma {:induction false} RunEventAt<A>(s: Ledger<A>, calls: seq<Call<A>>, j: nat)
    requires forall b :: Dense(s, b)
    requires forall b :: CountOf(s.count, b) + |calls| <= U64_MAX
    requires j < |calls|
    ensures |s.events| + j < |Run(s, calls).events|
    ensures var e := Run(s, calls).events[|s.events| + j];
      && e.attester == calls[j].attester
      && e.count == CountOf(s.count, calls[j].attester) + |Payloads(calls[..j + 1], calls[j].attester)|
      && e.accumulator == calls[j].accumulator
    decreases |calls|
  {
    var c, rest := calls[0], calls[1..];
    var s' := Update(s, c.attester, c.accumulator).1;
    var b := calls[j].attester;
    StepSucceeds(s, c, |rest|);
    RunAllSucceed(s', rest);
    assert Run(s, calls) == Run(s', rest);
    var e := Run(s', rest).events;
    assert calls[..j + 1][1..] == rest[..j];
    assert Payloads(calls[..j + 1], b) == Own(c, b) + Payloads(rest[..j], b);
    if j == 0 {
      assert e[|s.events|] == e[..|s'.events|][|s.events|];
    } else {
      RunEventAt(s', rest, j - 1);
      assert rest[j - 1] == calls[j] && rest[..j - 1 + 1] == rest[..j];
    }
  }

  /**
    The whole event log of a replay under the same conditions: every call
    returns `Ok` and deposits one event, in call order, carrying that call's
    attester, payload and the attester's new count.
   */
  lemma RunEmitsOneEventPerCall<A>(s: Ledger<A>, calls: seq<Call<A>>)
    requires forall b :: Dense(s, b)
    requires forall b :: CountOf(s.count, b) + |calls| <= U64_MAX
    ensures |Results(s, calls)| == |calls|
    ensures forall j :: 0 <= j < |calls| ==> Results(s, calls)[j] == Ok
    ensures |Run(s, calls).events| == |s.events| + |calls|
    ensures Run(s, calls).events[..|s.events|] == s.events
    ensures forall j :: 0 <= j < |calls| ==>
      var e := Run(s, calls).events[|s.events| + j];
      && e.attester == calls[j].attester
      && e.count == CountOf(s.count, calls[j].attester) + |Payloads(calls[..j + 1], calls[j].attester)|
      && e.accumulator == calls[j].accumulator
  {
    RunAllSucceed(s, calls);
    forall j | 0 <= j < |calls|
      ensures var e := Run(s, calls).events[|s.events| + j];
        && e.attester == calls[j].attester
        && e.count == CountOf(s.count, calls[j].attester) + |Payloads(calls[..j + 1], calls[j].attester)|
        && e.accumulator == calls[j].accumulator
    {
      RunEventAt(s, calls, j);
    }
  }
}
