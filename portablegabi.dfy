/**
  The accumulator store of the portablegabi pallet.

  Every attester keeps an append-only log of opaque byte blobs (accumulators)
  in the storage map `AccumulatorList`, keyed by (attester, index), and the
  length of that log in `AccumulatorCount`, which reads as 0 for an attester
  that never appended. The only write path is the dispatchable
  `update_accumulator`. The method `Store.UpdateAccumulator` models it: it
  changes the maps in place. The function `Update` is its abstract value on
  a snapshot of the storage; the method is checked against it, and the
  lemmas below state the pallet's promises about it.
 */
module Portablegabi {

  /** Largest value of a Rust `u64`. */
  const U64_MAX: int := 0xFFFF_FFFF_FFFF_FFFF

  type U64 = x: int | 0 <= x <= U64_MAX

  type Byte = bv8

  datatype Option<T> = None | Some(value: T)

  /** `Event::Updated(attester, new count, accumulator)`. */
  datatype Event<A> = Updated(attester: A, count: U64, accumulator: seq<Byte>)

  /** Both failures of the dispatchable are `DispatchError::Other` with a fixed message. */
  datatype DispatchError = Other(message: string)

  /** `DispatchResult`: `Ok(())` or an error. */
  datatype DispatchResult = Ok | Err(error: DispatchError)

  const OVERFLOW: DispatchError := Other("accumulator overflow")
  const INCONSISTENT: DispatchError := Other("inconsistent accumulator counter")

  /** The pallet's storage and the events it deposited, as one value. */
  datatype Ledger<A(==)> = Ledger(
    list: map<(A, U64), seq<Byte>>,
    count: map<A, U64>,
    events: seq<Event<A>>)

  /** Storage at genesis: both maps empty, no events. */
  function Genesis<A(==)>(): Ledger<A> {
    Ledger(map[], map[], [])
  }

  /** `AccumulatorCount::get`: an absent key reads as the default 0. */
  function CountOf<A(==)>(count: map<A, U64>, a: A): U64 {
    if a in count then count[a] else 0
  }

  /** Rust's `u64::checked_add`: `None` when the sum leaves the u64 range. */
  function CheckedAdd(x: U64, y: U64): Option<U64> {
    if x + y <= U64_MAX then Some(x + y) else None
  }

  /**
    The density invariant for attester `a`: the slot (a, i) is present exactly
    for the indices below the attester's count.
   */
  ghost predicate Dense<A>(s: Ledger<A>, a: A) {
    forall i: U64 :: (a, i) in s.list <==> i < CountOf(s.count, a)
  }

  /** `update_accumulator` on a snapshot: the result and the storage afterwards. */
  function Update<A(==)>(s: Ledger<A>, attester: A, accumulator: seq<Byte>): (r: (DispatchResult, Ledger<A>))
  {
    var counter := CountOf(s.count, attester);
    match CheckedAdd(counter, 1)
    case None => (Err(OVERFLOW), s)
    case Some(next) =>
      if (attester, counter) !in s.list then
        (Ok, Ledger(s.list[(attester, counter) := accumulator],
                    s.count[attester := next],
                    s.events + [Updated(attester, next, accumulator)]))
      else
        (Err(INCONSISTENT), s)
  }

  /** Which of the three outcomes a call has, in terms of the state before it. */
  lemma UpdateOutcome<A>(s: Ledger<A>, a: A, acc: seq<Byte>)
    ensures var c := CountOf(s.count, a);
      && (Update(s, a, acc).0 == Err(OVERFLOW) <==> c == U64_MAX)
      && (Update(s, a, acc).0 == Err(INCONSISTENT) <==> c < U64_MAX && (a, c) in s.list)
      && (Update(s, a, acc).0 == Ok <==> c < U64_MAX && (a, c) !in s.list)
  {
  }

  /** A failed call writes nothing and deposits no event. */
  lemma UpdateFailureIsNoOp<A>(s: Ledger<A>, a: A, acc: seq<Byte>)
    ensures Update(s, a, acc).0.Err? ==> Update(s, a, acc).1 == s
  {
  }

  /**
    A successful call stores the payload at the prior counter, advances the
    counter by one and deposits exactly one `Updated` event carrying the new count.
   */
  lemma UpdateSuccess<A>(s: Ledger<A>, a: A, acc: seq<Byte>)
    requires Update(s, a, acc).0 == Ok
    ensures var c, s' := CountOf(s.count, a), Update(s, a, acc).1;
      && c < U64_MAX
      && (a, c) !in s.list
      && (a, c) in s'.list && s'.list[(a, c)] == acc
      && CountOf(s'.count, a) == c + 1
      && s'.events == s.events + [Updated(a, c + 1, acc)]
  {
  }

  /**
    Nothing else changes: the counts of other attesters, and every slot other
    than (a, prior counter), are the same before and after the call, whatever
    its outcome.
   */
  lemma UpdateFrame<A>(s: Ledger<A>, a: A, acc: seq<Byte>)
    ensures var c, s' := CountOf(s.count, a), Update(s, a, acc).1;
      && (forall b :: b != a ==> CountOf(s'.count, b) == CountOf(s.count, b))
      && (forall key :: key != (a, c) ==> (key in s'.list <==> key in s.list))
      && (forall key :: key != (a, c) && key in s.list ==> s'.list[key] == s.list[key])
      && s.list.Keys <= s'.list.Keys
  {
  }

  /** Every call keeps the density invariant of every attester that had it. */
  lemma UpdatePreservesDense<A>(s: Ledger<A>, a: A, acc: seq<Byte>, b: A)
    requires Dense(s, b)
    ensures Dense(Update(s, a, acc).1, b)
  {
  }

  /**
    On a dense log the duplicate-slot guard never fires: a call fails exactly
    when the counter is already u64::MAX.
   */
  lemma DenseNeverInconsistent<A>(s: Ledger<A>, a: A, acc: seq<Byte>)
    requires Dense(s, a)
    ensures Update(s, a, acc).0 != Err(INCONSISTENT)
    ensures Update(s, a, acc).0 == Ok <==> CountOf(s.count, a) < U64_MAX
  {
  }

  /** The pallet's storage and event log, updated in place. */
  class Store<A(==)> {
    var list: map<(A, U64), seq<Byte>>
    var count: map<A, U64>
    var events: seq<Event<A>>

    /** The current storage as a value. */
    function Snapshot(): Ledger<A>
      reads this
    {
      Ledger(list, count, events)
    }

    /** Empty storage, as built at genesis. */
    constructor ()
      ensures Snapshot() == Genesis()
      ensures forall a :: Dense(Snapshot(), a)
    {
      list := map[];
      count := map[];
      events := [];
    }

    /** The `accumulator_count` getter. */
    method AccumulatorCount(a: A) returns (n: U64)
      ensures a !in count ==> n == 0
      ensures a in count ==> n == count[a]
    {
      n := CountOf(count, a);
    }

    /** The `accumulator_list` getter. */
    method AccumulatorList(a: A, i: U64) returns (v: Option<seq<Byte>>)
      ensures v.Some? <==> (a, i) in list
      ensures v.Some? ==> v.value == list[(a, i)]
    {
      v := if (a, i) in list then Some(list[(a, i)]) else None;
    }

    /** The dispatchable `update_accumulator`, called by an already authenticated attester. */
    method UpdateAccumulator(attester: A, accumulator: seq<Byte>) returns (r: DispatchResult)
      modifies this
      ensures (r, Snapshot()) == Update(old(Snapshot()), attester, accumulator)
      ensures r.Err? ==> list == old(list) && count == old(count) && events == old(events)
      ensures r == Ok ==> var c := old(CountOf(count, attester));
        && list == old(list)[(attester, c) := accumulator]
        && count == old(count)[attester := c + 1]
        && events == old(events) + [Updated(attester, c + 1, accumulator)]
      ensures forall b :: Dense(old(Snapshot()), b) ==> Dense(Snapshot(), b)
    {
      ghost var before := Snapshot();
      var counter := CountOf(count, attester);
      var next := CheckedAdd(counter, 1);
      if next.None? {
        r := Err(OVERFLOW);
      } else if (attester, counter) !in list {
        list := list[(attester, counter) := accumulator];
        count := count[attester := next.value];
        events := events + [Updated(attester, next.value, accumulator)];
        r := Ok;
      } else {
        r := Err(INCONSISTENT);
      }
      forall b | Dense(before, b)
        ensures Dense(Snapshot(), b)
      {
        UpdatePreservesDense(before, attester, accumulator, b);
      }
    }
  }

  /**
    The pallet's unit test: three appends by account 1 all succeed, leave
    the count at 3 and the three payloads in slots 0, 1 and 2.
   */
  method ItWorksForDefaultValue() returns (results: seq<DispatchResult>, n: U64, slots: seq<Option<seq<Byte>>>)
    ensures results == [Ok, Ok, Ok]
    ensures n == 3
    ensures slots == [Some([1, 2, 3]), Some([4, 5, 6]), Some([7, 8, 9])]
  {
    var store := new Store<int>();
    var r0 := store.UpdateAccumulator(1, [1, 2, 3]);
    var r1 := store.UpdateAccumulator(1, [4, 5, 6]);
    var r2 := store.UpdateAccumulator(1, [7, 8, 9]);
    results := [r0, r1, r2];
    n := store.AccumulatorCount(1);
    var s0 := store.AccumulatorList(1, 0);
    var s1 := store.AccumulatorList(1, 1);
    var s2 := store.AccumulatorList(1, 2);
    slots := [s0, s1, s2];
  }
}
