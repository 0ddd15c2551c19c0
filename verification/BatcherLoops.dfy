/**
 * The two loops of the batcher as they are written (internal/userop/batcher.go): gathering a batch
 * from the channel and flushing it. Both are held to the definitions the transition system uses.
 */
module BatcherLoops {
  import opened Common
  import opened Batcher
  import opened BatcherSafety

  /** The channel of a chain; clients may put operations in between any two looks at it. */
  class Channel {
    var items: seq<nat>
    ghost var taken: seq<nat>     // everything received so far
    ghost var put: seq<nat>       // everything accepted so far

    ghost predicate Valid()
      reads this
    {
      put == taken + items && |items| <= CHANNEL_CAP
    }

    constructor ()
      ensures Valid() && items == [] && taken == [] && put == []
    {
      items, taken, put := [], [], [];
    }

    method Arrivals()
      requires Valid()
      modifies this`items, this`put
      ensures Valid() && old(put) <= put
    {
      var more: nat := *;
      while more > 0
        invariant Valid() && old(put) <= put
      {
        var op: nat := *;
        if |items| < CHANNEL_CAP {
          items, put := items + [op], put + [op];
        }
        more := more - 1;
      }
    }

    /** A receive that does not wait. */
    method TryReceive() returns (op: Option<nat>)
      requires Valid()
      modifies this
      ensures Valid() && old(put) <= put
      ensures op.Some? ==> taken == old(taken) + [op.value]
      ensures op.None? ==> taken == old(taken) && items == []
    {
      Arrivals();
      if items == [] {
        return None;
      }
      op := Some(items[0]);
      assert items == [items[0]] + items[1..];
      items, taken := items[1..], taken + [items[0]];
    }
  }

  /** The drain loop of dispatch, after it has received a first operation. */
  method GatherBatch(ch: Channel, first: nat) returns (batch: seq<nat>, sawEmpty: bool)
    requires ch.Valid() && ch.taken != [] && ch.taken[|ch.taken| - 1] == first
    modifies ch
    ensures ch.Valid() && old(ch.put) <= ch.put
    ensures 1 <= |batch| <= MAX_BATCH && batch[0] == first
    ensures old(ch.taken) + batch[1..] == ch.taken
    ensures |batch| < MAX_BATCH ==> sawEmpty
    ensures sawEmpty ==> ch.items == []
  {
    batch, sawEmpty := [first], false;
    while |batch| < MAX_BATCH && !sawEmpty
      invariant ch.Valid() && old(ch.put) <= ch.put
      invariant 1 <= |batch| <= MAX_BATCH && batch[0] == first
      invariant old(ch.taken) + batch[1..] == ch.taken
      invariant sawEmpty ==> ch.items == []
      decreases !sawEmpty, MAX_BATCH - |batch|
    {
      var q := ch.TryReceive();
      if q.Some? {
        batch := batch + [q.value];
      } else {
        sawEmpty := true;
      }
    }
  }

  /** A queued operation with its result channel of capacity one. */
  class QueuedOp {
    const id: nat
    var res: seq<Outcome>

    constructor (id: nat)
      ensures this.id == id && res == []
    {
      this.id := id;
      res := [];
    }

    /** Sending blocks when the channel is full; callers show that it is not. */
    method Answer(o: Outcome)
      requires res == []
      modifies this
      ensures res == [o]
    {
      res := [o];
    }
  }

  /** sendUnderLock: any outcome, recorded. */
  class Link {
    var attempts: seq<Attempt>

    constructor ()
      ensures attempts == []
    {
      attempts := [];
    }

    method SendUnderLock(ops: seq<nat>) returns (o: Outcome)
      modifies this
      ensures attempts == old(attempts) + [Attempt(ops, o)]
    {
      o := *;
      attempts := attempts + [Attempt(ops, o)];
    }
  }

  function Ids(batch: seq<QueuedOp>): (ids: seq<nat>)
    ensures |ids| == |batch| && forall i :: 0 <= i < |batch| ==> ids[i] == batch[i].id
  {
    if batch == [] then [] else Ids(batch[..|batch| - 1]) + [batch[|batch| - 1].id]
  }

  /** A finished flush of these operations with these submissions. */
  ghost function Finished(ids: seq<nat>, attempts: seq<Attempt>): Flight {
    Flight(0, ids, true, attempts, Gone)
  }

  /**
   * flush. Its submissions have the shape that every finished flush of the transition system has, and
   * every operation has received exactly the answer that this shape prescribes.
   */
  method Flush(link: Link, batch: seq<QueuedOp>)
    requires 1 <= |batch| <= MAX_BATCH && Distinct(batch)
    requires link.attempts == []
    requires forall k :: 0 <= k < |batch| ==> batch[k].res == []
    modifies link, batch
    ensures FlightShape(Finished(Ids(batch), link.attempts))
    ensures forall k :: 0 <= k < |batch| ==>
      batch[k].res == [BatcherSafety.Answer(Finished(Ids(batch), link.attempts), k)]
  {
    var ops := Ids(batch);
    var o := link.SendUnderLock(ops);
    if o.Ok() {
      SpreadAll(batch, Outcome(o.hash, None));
      return;
    }
    if |batch| > 1 {
      RetryEach(link, batch, o);
      return;
    }
    batch[0].Answer(Outcome("", o.err));
  }

  method SpreadAll(batch: seq<QueuedOp>, o: Outcome)
    requires Distinct(batch) && forall k :: 0 <= k < |batch| ==> batch[k].res == []
    modifies batch
    ensures forall k :: 0 <= k < |batch| ==> batch[k].res == [o]
  {
    for i := 0 to |batch|
      invariant forall k :: 0 <= k < i ==> batch[k].res == [o]
      invariant forall k :: i <= k < |batch| ==> batch[k].res == []
    {
      batch[i].Answer(o);
    }
  }

  method RetryEach(link: Link, batch: seq<QueuedOp>, failed: Outcome)
    requires 1 < |batch| && Distinct(batch) && forall k :: 0 <= k < |batch| ==> batch[k].res == []
    requires link.attempts == [Attempt(Ids(batch), failed)]
    modifies link, batch
    ensures |link.attempts| == |batch| + 1 && link.attempts[0] == old(link.attempts)[0]
    ensures forall k :: 0 <= k < |batch| ==>
      link.attempts[k + 1].ops == [batch[k].id] && batch[k].res == [link.attempts[k + 1].outcome]
  {
    for i := 0 to |batch|
      invariant |link.attempts| == i + 1 && link.attempts[0] == old(link.attempts)[0]
      invariant forall k :: 0 <= k < i ==>
        link.attempts[k + 1].ops == [batch[k].id] && batch[k].res == [link.attempts[k + 1].outcome]
      invariant forall k :: i <= k < |batch| ==> batch[k].res == []
    {
      var o := link.SendUnderLock([batch[i].id]);
      batch[i].Answer(o);
    }
  }
}
