/** Request finalization by posted event, src/finalize.rs. The host's posted-events
    queue and its `ngx_http_finalize_request` primitive are modelled as a queue of
    records and a log of calls; the pool that owns the records as a ghost set. */
module Finalize {

  /** Identity of an `ngx_http_request_t`. */
  type RequestId = nat

  /** One call of the host primitive `ngx_http_finalize_request(r, rc)`. */
  datatype Completion = Completion(request: RequestId, rc: int)

  ghost predicate NoDuplicates<T>(s: seq<T>) {
    forall i, j :: 0 <= i < j < |s| ==> s[i] != s[j]
  }

  /** `ngx_queue_remove` of a node: the queue without `x`. `RemoveConcat` shows
      that the other events keep their order. */
  function Remove<T(==)>(s: seq<T>, x: T): (r: seq<T>)
    ensures forall y :: y in r ==> y in s && y != x
    ensures forall y :: y in s && y != x ==> y in r
    ensures x !in s ==> r == s
    ensures x in s && NoDuplicates(s) ==> |r| == |s| - 1
    ensures NoDuplicates(s) ==> NoDuplicates(r)
  {
    if s == [] then []
    else if s[0] == x then Remove(s[1..], x)
    else
      var rest := Remove(s[1..], x);
      assert NoDuplicates(s) ==> NoDuplicates([s[0]] + rest) by {
        if NoDuplicates(s) {
          assert NoDuplicates(s[1..]) && s[0] !in s[1..];
          assert s[0] !in rest;
        }
      }
      [s[0]] + rest
  }

  /** Removal works piecewise, so it deletes every `x` and keeps the order of the rest. */
  lemma {:induction false} RemoveConcat<T>(a: seq<T>, b: seq<T>, x: T)
    ensures Remove(a + b, x) == Remove(a, x) + Remove(b, x)
  {
    if a == [] {
      assert a + b == b;
    } else {
      assert (a + b)[0] == a[0] && (a + b)[1..] == a[1..] + b;
      RemoveConcat(a[1..], b, x);
    }
  }

  /** Removing the head of a queue without duplicates is dropping its first element. */
  lemma {:induction false} RemoveHead<T>(s: seq<T>)
    requires s != [] && NoDuplicates(s)
    ensures Remove(s, s[0]) == s[1..]
  {
    assert s[0] !in s[1..];
  }

  /** The `Finalization` record: the embedded event's `posted` flag and `data`
      pointer, the request and the status code. */
  class Finalization {
    var posted: bool
    var data: Finalization?
    const request: RequestId
    const rc: int

    /** The record as allocated: a zeroed event, the request and the code. */
    constructor (request: RequestId, rc: int)
      ensures this.request == request && this.rc == rc
      ensures !posted && data == null
    {
      this.request := request;
      this.rc := rc;
      posted := false;
      data := null;
    }
  }

  /** The host side: `ngx_posted_events`, the log of finalize calls, and (ghost) the
      records alive in request pools and the records whose handler has run. */
  class EventLoop {
    var posted: seq<Finalization>
    var finalized: seq<Completion>
    ghost var live: set<Finalization>
    ghost var fired: seq<Finalization>

    /** Every live record's event is posted iff it is in the queue; it points at its
        own record; nothing is queued twice or after it fired; and the finalize log is
        exactly one call per fired record, with that record's request and code. */
    ghost predicate Valid()
      reads this, live
    {
      && (forall f :: f in posted ==> f in live)
      && (forall f :: f in live ==> (f.posted <==> f in posted) && f.data == f)
      && NoDuplicates(posted)
      && NoDuplicates(fired)
      && (forall f :: f in posted ==> f !in fired)
      && |finalized| == |fired|
      && (forall i :: 0 <= i < |fired| ==> finalized[i] == Completion(fired[i].request, fired[i].rc))
    }

    constructor ()
      ensures Valid() && posted == [] && finalized == [] && live == {} && fired == []
    {
      posted, finalized, live, fired := [], [], {}, [];
    }

    /** `ngx_post_event`: queue the event at the back unless it is already posted. */
    method PostEvent(ev: Finalization)
      modifies this`posted, ev`posted
      ensures ev.posted
      ensures posted == if old(ev.posted) then old(posted) else old(posted) + [ev]
    {
      if !ev.posted {
        ev.posted := true;
        posted := posted + [ev];
      }
    }

    /** `ngx_delete_posted_event`: unlink the event and clear its flag. */
    method DeletePostedEvent(ev: Finalization)
      modifies this`posted, ev`posted
      ensures !ev.posted
      ensures posted == Remove(old(posted), ev)
    {
      ev.posted := false;
      posted := Remove(posted, ev);
    }

    /** `finalize_request`: allocate a record in the request's pool, point its event
        at it, and post the event. Nothing is finalized here. */
    method FinalizeRequest(request: RequestId, rc: int) returns (fin: Finalization)
      requires Valid()
      modifies this
      ensures Valid()
      ensures fresh(fin) && fin.request == request && fin.rc == rc
      ensures fin.data == fin && fin.posted
      ensures posted == old(posted) + [fin]
      ensures finalized == old(finalized) && fired == old(fired)
      ensures live == old(live) + {fin}
    {
      fin := new Finalization(request, rc);
      fin.data := fin;
      PostEvent(fin);
      live := live + {fin};
    }

    /** `fini`, the event handler: finalize the request stored in the record the
        event's `data` points at, with the stored code. */
    method Fini(ev: Finalization)
      requires ev.data != null
      modifies this`finalized
      ensures finalized == old(finalized) + [Completion(ev.data.request, ev.data.rc)]
    {
      var fin := ev.data;
      finalized := finalized + [Completion(fin.request, fin.rc)];
    }

    /** One turn of the host's posted-events loop: unlink the oldest event, then
        call its handler. */
    method RunNextPosted() returns (turn: Turn)
      requires Valid()
      modifies this, posted
      ensures Valid() && live == old(live)
      ensures old(posted) == [] ==> turn == Idle && posted == [] && finalized == old(finalized) && fired == old(fired)
      ensures old(posted) != [] ==>
        && turn == Fired(old(posted)[0])
        && posted == old(posted)[1..]
        && finalized == old(finalized) + [Completion(old(posted)[0].request, old(posted)[0].rc)]
        && fired == old(fired) + [old(posted)[0]]
    {
      if posted == [] {
        return Idle;
      }
      var ev := posted[0];
      RemoveHead(posted);
      DeletePostedEvent(ev);
      Fini(ev);
      fired := fired + [ev];
      turn := Fired(ev);
    }

    /** `ngx_event_process_posted`: run turns until the posted queue is empty. Every
        event posted on entry fires, once each and in posting order. */
    method ProcessPosted()
      requires Valid()
      modifies this, posted
      ensures Valid() && posted == [] && live == old(live)
      ensures fired == old(fired) + old(posted)
      ensures finalized == old(finalized) + Completions(old(posted))
    {
      ghost var k := 0;
      while posted != []
        invariant Valid() && live == old(live) && 0 <= k <= |old(posted)|
        invariant posted == old(posted)[k..]
        invariant fired == old(fired) + old(posted)[..k]
        invariant finalized == old(finalized) + Completions(old(posted)[..k])
        decreases |posted|
      {
        var turn := RunNextPosted();
        assert old(posted)[..k + 1] == old(posted)[..k] + [old(posted)[k]];
        k := k + 1;
      }
      assert old(posted)[..k] == old(posted);
    }

    /** `Drop for Finalization`, run when the request's pool is destroyed: a record
        whose event is still posted is unlinked, so its handler never runs. */
    method Drop(fin: Finalization)
      requires Valid() && fin in live
      modifies this, fin
      ensures Valid()
      ensures live == old(live) - {fin}
      ensures fin !in posted
      ensures posted == Remove(old(posted), fin)
      ensures !old(fin.posted) ==> posted == old(posted)
      ensures finalized == old(finalized) && fired == old(fired)
    {
      if fin.posted {
        DeletePostedEvent(fin);
      }
      live := live - {fin};
    }
  }

  /** The finalize calls that firing the records `fs` makes, in order. */
  function Completions(fs: seq<Finalization>): (cs: seq<Completion>)
    ensures |cs| == |fs|
    ensures forall i :: 0 <= i < |fs| ==> cs[i] == Completion(fs[i].request, fs[i].rc)
  {
    if fs == [] then []
    else Completions(fs[..|fs| - 1]) + [Completion(fs[|fs| - 1].request, fs[|fs| - 1].rc)]
  }

  /** What one turn of the posted-events loop did. */
  datatype Turn = Idle | Fired(event: Finalization)

  /** The normal path: a request finalized from a task, while other events may be
      posted already. The posted-events loop runs the earlier events first, in order,
      then fires the new record, once, finalizing the request with the code given.
      Nothing is finalized before `finalize_request` has returned (its own contract). */
  method FinalizeThenRun(loop: EventLoop, request: RequestId, rc: int) returns (fin: Finalization)
    requires loop.Valid()
    modifies loop, loop.posted
    ensures loop.Valid() && loop.posted == []
    ensures fresh(fin) && fin.request == request && fin.rc == rc
    ensures fin !in old(loop.fired) + old(loop.posted)
    ensures loop.fired == old(loop.fired) + old(loop.posted) + [fin]
    ensures loop.live == old(loop.live) + {fin}
    ensures loop.finalized == old(loop.finalized) + Completions(old(loop.posted)) + [Completion(request, rc)]
  {
    ghost var before := loop.fired + loop.posted;
    fin := loop.FinalizeRequest(request, rc);
    assert fin !in before;
    loop.ProcessPosted();
    assert Completions(old(loop.posted) + [fin]) == Completions(old(loop.posted)) + [Completion(request, rc)];
  }

  /** The abort path: the request's pool is destroyed before the posted-events loop
      gets to the event. The loop then runs the other events as before, and the
      dropped record never fires, however many idle turns (`extra`) follow. */
  method FinalizeThenDrop(loop: EventLoop, request: RequestId, rc: int, extra: nat) returns (fin: Finalization)
    requires loop.Valid()
    modifies loop, loop.posted
    ensures loop.Valid() && loop.posted == []
    ensures fresh(fin) && fin !in loop.live && fin !in loop.fired
    ensures loop.fired == old(loop.fired) + old(loop.posted)
    ensures loop.finalized == old(loop.finalized) + Completions(old(loop.posted))
    ensures loop.live == old(loop.live)
  {
    fin := loop.FinalizeRequest(request, rc);
    loop.Drop(fin);
    RemoveConcat(old(loop.posted), [fin], fin);
    assert loop.posted == old(loop.posted);
    loop.ProcessPosted();
    var n := 0;
    while n < extra
      invariant loop.Valid() && loop.posted == []
      invariant loop.fired == old(loop.fired) + old(loop.posted)
      invariant loop.finalized == old(loop.finalized) + Completions(old(loop.posted))
      invariant loop.live == old(loop.live)
    {
      var turn := loop.RunNextPosted();
      n := n + 1;
    }
  }
}
