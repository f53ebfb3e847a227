/** One subscription of the event broker: a bounded queue with a closing sentinel. */
module Subscriptions {
  import opened DialogRuns

  datatype Item = Queued(event: Event) | Sentinel

  /** How a subscription ended: not yet, with its queue thrown away, or with its queue left to be read. */
  datatype Ending = Open | Cut | Drained(at: nat, lost: nat, total: nat)

  /**
   * The queue, with what was published since the subscription began and what was received so far.
   * `Drained(at, lost, total)` remembers how much had been received and published at the close.
   */
  datatype Tape = Tape(
    size: nat, queue: seq<Item>, closed: bool, published: seq<Event>, received: seq<Event>, over: bool, ending: Ending)

  datatype Op = Offer(event: Event) | Close(discard: bool) | Receive

  function Empty(size: nat): Tape {
    Tape(size, [], false, [], [], false, Open)
  }

  function Closed(t: Tape, discard: bool): Tape {
    if t.closed then t
    else if discard then t.(closed := true, queue := [Sentinel], ending := Cut)
    else
      var full := |t.queue| >= t.size && t.queue != [];
      t.(closed := true, queue := (if full then t.queue[1..] else t.queue) + [Sentinel],
         ending := Drained(|t.received|, if full then 1 else 0, |t.published|))
  }

  /** `offer`: refused once closed, queued while there is room; a full queue closes the subscription instead. */
  function Offered(t: Tape, e: Event): Tape {
    var told := t.(published := t.published + [e]);
    if t.closed then told
    else if |t.queue| >= t.size then Closed(told, true)
    else told.(queue := t.queue + [Queued(e)])
  }

  function Received(t: Tape): Tape {
    if t.queue == [] then t   // waits
    else if t.queue[0].Sentinel? then t.(queue := t.queue[1..], over := true)
    else t.(queue := t.queue[1..], received := t.received + [t.queue[0].event])
  }

  function Apply(t: Tape, op: Op): Tape {
    match op
    case Offer(e) => Offered(t, e)
    case Close(discard) => Closed(t, discard)
    case Receive => Received(t)
  }

  function Run(t: Tape, ops: seq<Op>): Tape {
    if ops == [] then t else Apply(Run(t, ops[..|ops| - 1]), ops[|ops| - 1])
  }

  // ---------------------------------------------------------------- the invariant

  function Pending(queue: seq<Item>): seq<Event> {
    if queue == [] then []
    else Pending(queue[..|queue| - 1]) + (if queue[|queue| - 1].Queued? then [queue[|queue| - 1].event] else [])
  }

  /** The sentinel is last, and there exactly while a closed subscription has not been read to its end. */
  ghost predicate Shaped(t: Tape) {
    && |t.queue| <= t.size && t.size > 0
    && (forall i :: 0 <= i < |t.queue| && t.queue[i].Sentinel? ==> i == |t.queue| - 1)
    && (t.closed && !t.over <==> t.queue != [] && t.queue[|t.queue| - 1].Sentinel?)
    && (t.over ==> t.closed && t.queue == [])
    && (t.ending.Open? <==> !t.closed)
  }

  /** What was received together with what is still queued. */
  ghost predicate Faithful(t: Tape) {
    match t.ending
    case Open => t.received + Pending(t.queue) == t.published
    case Cut => t.received <= t.published && Pending(t.queue) == []
    case Drained(at, lost, total) =>
      && lost <= 1 && at + lost <= total <= |t.published|
      && t.received + Pending(t.queue) == t.published[..at] + t.published[at + lost..total]
  }

  ghost predicate Valid(t: Tape) {
    Shaped(t) && Faithful(t)
  }

  lemma PendingPush(queue: seq<Item>, item: Item)
    ensures Pending(queue + [item]) == Pending(queue) + (if item.Queued? then [item.event] else [])
  {
    assert (queue + [item])[..|queue|] == queue;
  }

  lemma {:induction false} PendingPop(queue: seq<Item>)
    requires queue != []
    ensures Pending(queue) == (if queue[0].Queued? then [queue[0].event] else []) + Pending(queue[1..])
  {
    var n := |queue| - 1;
    if n > 0 {
      PendingPop(queue[..n]);
      assert queue[..n][1..] == queue[1..][..n - 1];
    }
  }

  /** Publishing to a closed subscription changes nothing it has kept. */
  lemma ToldLater(t: Tape, e: Event)
    requires Valid(t) && t.closed
    ensures Valid(t.(published := t.published + [e]))
  {
    match t.ending
    case Drained(at, lost, total) => {
      assert (t.published + [e])[..at] == t.published[..at];
      assert (t.published + [e])[at + lost..total] == t.published[at + lost..total];
    }
    case Cut => {
    }
  }

  /** Throwing the queue away leaves what was received a prefix of what was published, now and with more. */
  lemma CutKeepsValid(t: Tape, published: seq<Event>)
    requires Valid(t) && !t.closed && t.published <= published
    ensures Valid(Closed(t.(published := published), true))
  {
    assert Pending([Sentinel]) == [];
    assert t.received <= t.published;
  }

  /** The queue after its oldest item made way for the sentinel. */
  lemma DrainKeepsFull(t: Tape)
    requires Valid(t) && !t.closed && |t.queue| >= t.size
    ensures Valid(Closed(t, false))
  {
    PendingPop(t.queue);
    PendingPush(t.queue[1..], Sentinel);
    var at := |t.received|;
    assert Pending(t.queue) == [t.queue[0].event] + Pending(t.queue[1..]);
    assert t.published[..at] == t.received && t.published[at + 1..|t.published|] == Pending(t.queue[1..]);
  }

  lemma DrainKeepsValid(t: Tape)
    requires Valid(t) && !t.closed
    ensures Valid(Closed(t, false))
  {
    if |t.queue| >= t.size {
      DrainKeepsFull(t);
    } else {
      PendingPush(t.queue, Sentinel);
      var at := |t.received|;
      assert t.published[..at] == t.received && t.published[at..|t.published|] == Pending(t.queue);
    }
  }

  lemma QueueKeepsValid(t: Tape, e: Event)
    requires Valid(t) && !t.closed && |t.queue| < t.size
    ensures Valid(t.(published := t.published + [e], queue := t.queue + [Queued(e)]))
  {
    PendingPush(t.queue, Queued(e));
    assert t.received + (Pending(t.queue) + [e]) == t.received + Pending(t.queue) + [e];
  }

  lemma OfferKeepsValid(t: Tape, e: Event)
    requires Valid(t)
    ensures Valid(Offered(t, e))
  {
    if t.closed {
      ToldLater(t, e);
    } else if |t.queue| >= t.size {
      CutKeepsValid(t, t.published + [e]);
    } else {
      QueueKeepsValid(t, e);
    }
  }

  lemma CloseKeepsValid(t: Tape, discard: bool)
    requires Valid(t)
    ensures Valid(Closed(t, discard))
  {
    if !t.closed {
      if discard {
        CutKeepsValid(t, t.published);
      } else {
        DrainKeepsValid(t);
      }
    }
  }

  lemma ReceiveKeepsValid(t: Tape)
    requires Valid(t)
    ensures Valid(Received(t))
  {
    if t.queue != [] {
      PendingPop(t.queue);
      assert t.received + Pending(t.queue) == Received(t).received + Pending(t.queue[1..]);
    }
  }

  lemma {:induction false} RunKeepsValid(size: nat, ops: seq<Op>)
    requires size > 0
    ensures Valid(Run(Empty(size), ops)) && Run(Empty(size), ops).size == size
  {
    if ops != [] {
      var n := |ops| - 1;
      RunKeepsValid(size, ops[..n]);
      var t := Run(Empty(size), ops[..n]);
      match ops[n]
      case Offer(e) => OfferKeepsValid(t, e);
      case Close(discard) => CloseKeepsValid(t, discard);
      case Receive => ReceiveKeepsValid(t);
    }
  }

  // ---------------------------------------------------------------- what a subscriber can rely on

  /** For any schedule the queue never exceeds its size, so the sentinel always fits. */
  lemma QueueIsBounded(size: nat, ops: seq<Op>)
    requires size > 0
    ensures |Run(Empty(size), ops).queue| <= size
    ensures Run(Empty(size), ops).closed && !Run(Empty(size), ops).over ==>
      var queue := Run(Empty(size), ops).queue; queue != [] && queue[|queue| - 1] == Sentinel
  {
    RunKeepsValid(size, ops);
  }

  function Offers(ops: seq<Op>): seq<Event> {
    if ops == [] then []
    else Offers(ops[..|ops| - 1]) + (if ops[|ops| - 1].Offer? then [ops[|ops| - 1].event] else [])
  }

  /** Operation `i` offers an event while `size` of those offered before wait to be received. */
  predicate Overflows(size: nat, ops: seq<Op>, i: nat) {
    i < |ops| && ops[i].Offer? && |Offers(ops[..i])| - |Run(Empty(size), ops[..i]).received| >= size
  }

  lemma {:induction false} PendingSize(queue: seq<Item>)
    requires forall i :: 0 <= i < |queue| ==> queue[i].Queued?
    ensures |Pending(queue)| == |queue|
  {
    if queue != [] {
      PendingSize(queue[..|queue| - 1]);
    }
  }

  lemma WaitingIsQueued(t: Tape)
    requires Valid(t) && !t.closed
    ensures |t.queue| == |t.published| - |t.received|
  {
    PendingSize(t.queue);
  }

  /**
   A subscription that nobody closes stays open exactly as long as no offer finds `size` events unread, and while it
   is open nothing that was offered is lost.
   */
  lemma {:induction false} OpenUntilOverflow(size: nat, ops: seq<Op>)
    requires size > 0 && forall i :: 0 <= i < |ops| ==> !ops[i].Close?
    ensures Run(Empty(size), ops).closed <==> exists i: nat :: Overflows(size, ops, i)
    ensures var t := Run(Empty(size), ops);
      !t.closed ==> t.published == Offers(ops) && t.received + Pending(t.queue) == Offers(ops)
  {
    RunKeepsValid(size, ops);
    if ops != [] {
      var n := |ops| - 1;
      var t := Run(Empty(size), ops[..n]);
      OpenUntilOverflow(size, ops[..n]);
      RunKeepsValid(size, ops[..n]);
      forall i: nat | i < n ensures Overflows(size, ops, i) <==> Overflows(size, ops[..n], i) {
        assert ops[..n][..i] == ops[..i];
      }
      if t.closed {
        var i: nat :| Overflows(size, ops[..n], i);
        assert Overflows(size, ops, i);
      } else {
        WaitingIsQueued(t);
        assert Run(Empty(size), ops).closed <==> Overflows(size, ops, n);
      }
    }
  }

  /** An event is kept whenever there is room for it, and closes the subscription only when there is none. */
  lemma OfferedIsKept(t: Tape, e: Event)
    ensures var r := Offered(t, e);
      && (r.closed <==> t.closed || |t.queue| >= t.size)
      && (!r.closed ==> r.queue == t.queue + [Queued(e)])
  {
  }

  /** What was received is a prefix of what was published, unless the broker drained the subscription. */
  lemma ReceivedIsPrefix(size: nat, ops: seq<Op>)
    requires size > 0 && !Run(Empty(size), ops).ending.Drained?
    ensures Run(Empty(size), ops).received <= Run(Empty(size), ops).published
  {
    RunKeepsValid(size, ops);
  }

  /** Read to its end, a drained subscription has delivered all but at most one event, the oldest still queued. */
  lemma DrainedLosesAtMostOne(size: nat, ops: seq<Op>)
    requires size > 0 && Run(Empty(size), ops).over && Run(Empty(size), ops).ending.Drained?
    ensures var t := Run(Empty(size), ops);
      t.ending.lost <= 1 && t.ending.at + t.ending.lost <= t.ending.total <= |t.published|
      && t.received == t.published[..t.ending.at] + t.published[t.ending.at + t.ending.lost..t.ending.total]
  {
    RunKeepsValid(size, ops);
  }

  /** A broker that drains an open subscription costs it an event exactly if its queue is full. */
  lemma OnlyFullQueueLoses(size: nat, ops: seq<Op>)
    requires size > 0 && !Run(Empty(size), ops).closed
    ensures var t := Run(Empty(size), ops);
      var drained := Closed(t, false);
      drained.received + Pending(drained.queue) == t.published <==> |t.queue| < size
  {
    RunKeepsValid(size, ops);
    var t := Run(Empty(size), ops);
    if |t.queue| < size {
      PendingPush(t.queue, Sentinel);
    } else {
      PendingPush(t.queue[1..], Sentinel);
      PendingPop(t.queue);
    }
  }
}
