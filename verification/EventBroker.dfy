/** `application/event_broker.py`: fan-out of dialog events to bounded subscriptions. */
module EventBroker {
  import opened Wrappers
  import opened DialogRuns
  import opened DialogProtocol
  import opened Sequences
  import T = Subscriptions
  import opened Subscriptions

  /** `_InMemoryDialogSubscription`; `from` is the length of the dialog's stream when it was opened. */
  class Subscription {
    const dialogId: Dialog
    const size: nat
    ghost const from: nat
    var queue: seq<Item>
    var closed: bool
    ghost var published: seq<Event>
    ghost var received: seq<Event>
    ghost var over: bool
    ghost var ending: Ending

    ghost function State(): Tape reads this {
      Tape(size, queue, closed, published, received, over, ending)
    }

    ghost predicate Valid() reads this {
      T.Valid(State())
    }

    constructor (d: Dialog, size: nat, ghost from: nat)
      requires size > 0
      ensures Valid() && State() == Empty(size) && dialogId == d && this.size == size && this.from == from
    {
      dialogId, this.size, this.from := d, size, from;
      queue, closed := [], false;
      published, received, over, ending := [], [], false, Open;
    }

    method CloseQueue(discard: bool)
      requires Valid()
      modifies this
      ensures Valid() && State() == Closed(old(State()), discard)
    {
      CloseKeepsValid(State(), discard);
      if closed {
        return;
      }
      closed := true;
      ending := if discard then Cut else Drained(|received|, if |queue| >= size then 1 else 0, |published|);
      if discard {
        queue := [];
      } else if |queue| >= size {
        queue := queue[1..];
      }
      queue := queue + [Sentinel];
    }

    method OfferEvent(e: Event) returns (ok: bool)
      requires Valid()
      modifies this
      ensures Valid() && State() == Offered(old(State()), e)
      ensures ok == !closed && (closed <==> old(closed) || |old(queue)| >= size)
      ensures !closed ==> queue == old(queue) + [Queued(e)]
    {
      OfferKeepsValid(State(), e);
      published := published + [e];
      if closed {
        return false;
      }
      if |queue| >= size {
        closed, queue, ending := true, [Sentinel], Cut;
        return false;
      }
      queue := queue + [Queued(e)];
      ok := true;
    }

    /** The next event, or nothing at the sentinel; the caller waits while the queue is empty. */
    method Receive() returns (r: Option<Event>)
      requires Valid() && queue != []
      modifies this
      ensures Valid() && State() == Received(old(State()))
      ensures r.None? <==> over
      ensures r.Some? ==> received == old(received) + [r.value]
    {
      ReceiveKeepsValid(State());
      var item := queue[0];
      queue := queue[1..];
      if item.Sentinel? {
        over := true;
        return None;
      }
      received := received + [item.event];
      r := Some(item.event);
    }
  }

  function StreamOf(streams: map<Dialog, seq<Event>>, d: Dialog): seq<Event> {
    if d in streams then streams[d] else []
  }

  /** A subscription opened at `from` has been offered a stretch of the stream. */
  ghost predicate IsStretch(all: seq<Event>, from: nat, published: seq<Event>) {
    from + |published| <= |all| && forall i :: 0 <= i < |published| ==> published[i] == all[from + i]
  }

  lemma StretchStays(all: seq<Event>, e: Event, from: nat, published: seq<Event>)
    requires IsStretch(all, from, published)
    ensures IsStretch(all + [e], from, published)
    ensures from + |published| == |all| ==> IsStretch(all + [e], from, published + [e])
  {
  }

  /**
   `InMemoryDialogEventBroker`; `streams` is what was published so far, `served` the subscriptions it serves,
   `everOpened` all it ever opened.
   */
  class Broker {
    const queueSize: nat
    var subscribers: map<Dialog, set<Subscription>>
    var closed: bool
    ghost var streams: map<Dialog, seq<Event>>
    ghost var served: set<Subscription>
    ghost var everOpened: set<Subscription>

    /** Whatever became of it, the subscription was offered a stretch of the stream of its dialog. */
    ghost predicate Follows(sub: Subscription) reads this, sub {
      sub.Valid() && IsStretch(StreamOf(streams, sub.dialogId), sub.from, sub.published)
    }

    /** Each served subscription has been offered exactly what was published since it was opened. */
    ghost predicate Serves(sub: Subscription) reads this, sub {
      && Follows(sub) && !sub.closed && sub.size == queueSize
      && sub.from + |sub.published| == |StreamOf(streams, sub.dialogId)|
      && sub.dialogId in subscribers && sub in subscribers[sub.dialogId]
    }

    ghost predicate Valid() reads this, everOpened {
      && queueSize > 0 && served <= everOpened
      && (forall sub :: sub in everOpened ==> Follows(sub))
      && (forall sub :: sub in served ==> Serves(sub))
      && (forall d, sub :: d in subscribers && sub in subscribers[d] ==> sub in served && sub.dialogId == d)
    }

    constructor (queueSize: nat)
      requires queueSize > 0
      ensures Valid() && served == everOpened == {} && streams == map[] && !closed
    {
      this.queueSize := queueSize;
      subscribers, closed, streams, served, everOpened := map[], false, map[], {}, {};
    }

    method Subscribe(d: Dialog) returns (r: Option<Subscription>)
      requires Valid()
      modifies this
      ensures Valid() && streams == old(streams) && r.Some? == !closed == !old(closed)
      ensures r.Some? ==> fresh(r.value) && served == old(served) + {r.value} && r.value.State() == Empty(queueSize)
      ensures r.Some? ==> r.value.dialogId == d && r.value.from == |StreamOf(streams, d)|
      ensures everOpened == old(everOpened) + (if r.Some? then {r.value} else {})
      ensures r.None? ==> served == old(served)
    {
      if closed {
        return None;
      }
      var sub := new Subscription(d, queueSize, |StreamOf(streams, d)|);
      var others := if d in subscribers then subscribers[d] else {};
      subscribers := subscribers[d := others + {sub}];
      served, everOpened := served + {sub}, everOpened + {sub};
      forall other | other in everOpened ensures Follows(other) {
        assert other == sub || old(Follows(other));
      }
      forall other | other in served ensures Serves(other) {
        assert other == sub || old(Serves(other));
      }
      r := Some(sub);
    }

    /** Offers the event to each subscription in turn; `failed` are those it closed. */
    method OfferAll(subs: set<Subscription>, e: Event) returns (failed: set<Subscription>)
      requires forall sub :: sub in subs ==> sub.Valid()
      modifies subs
      ensures forall sub :: sub in subs ==> sub.Valid() && sub.State() == Offered(old(sub.State()), e)
      ensures forall sub :: sub in subs ==> sub.published == old(sub.published) + [e]
      ensures failed == set sub | sub in subs && sub.closed
    {
      failed := {};
      var rest := subs;
      while rest != {}
        invariant rest <= subs
        invariant forall sub :: sub in subs ==> sub.Valid()
        invariant forall sub :: sub in rest ==> sub.State() == old(sub.State())
        invariant forall sub :: sub in subs && sub !in rest ==> sub.State() == Offered(old(sub.State()), e)
        invariant forall sub :: sub in failed <==> sub in subs && sub !in rest && sub.closed
      {
        var sub :| sub in rest;
        var ok := sub.OfferEvent(e);
        rest := rest - {sub};
        if !ok {
          failed := failed + {sub};
        }
      }
    }

    /**
     * Every subscription of the dialog is offered the event, whatever becomes of the others;
     * no other subscription notices, and only those that overflowed are dropped.
     */
    method Publish(d: Dialog, e: Event)
      requires Valid()
      modifies this, served
      ensures Valid() && closed == old(closed) && everOpened == old(everOpened)
      ensures !closed ==> streams == old(streams)[d := StreamOf(old(streams), d) + [e]]
      ensures closed ==> streams == old(streams)
      ensures forall sub ::
        sub in old(served) && (sub.dialogId != d || closed) ==> sub.State() == old(sub.State()) && sub in served
      ensures forall sub ::
        sub in old(served) && sub.dialogId == d && !closed ==>
          sub.State() == Offered(old(sub.State()), e)
      ensures forall sub :: sub in old(served) && sub.dialogId == d && !closed ==>
        if |old(sub.queue)| >= sub.size then sub.closed
        else sub in served && sub.queue == old(sub.queue) + [Queued(e)]
      ensures forall sub :: sub in served <==> sub in old(served) && !sub.closed
    {
      if closed {
        return;
      }
      PublishTo(d, e, if d in subscribers then subscribers[d] else {});
      forall sub | sub in old(served) && sub.dialogId == d {
        OfferedIsKept(old(sub.State()), e);
      }
    }

    method PublishTo(d: Dialog, e: Event, subs: set<Subscription>)
      requires Valid() && subs == (if d in subscribers then subscribers[d] else {})
      modifies this, subs
      ensures Valid() && closed == old(closed) && everOpened == old(everOpened)
      ensures streams == old(streams)[d := StreamOf(old(streams), d) + [e]]
      ensures forall sub :: sub in subs ==> sub.State() == Offered(old(sub.State()), e)
      ensures forall sub :: sub in served <==> sub in old(served) && (sub in subs ==> !sub.closed)
    {
      forall sub | sub in everOpened
        ensures FollowsOn(sub, d, e, sub.published)
        ensures sub in subs ==> Serves(sub) && FollowsOn(sub, d, e, sub.published + [e])
      {
        assert sub in subs ==> Serves(sub);
        KeepsUp(sub, d, e);
      }
      var failed := OfferAll(subs, e);
      forall sub | sub in everOpened ensures sub.Valid() && FollowsOn(sub, d, e, sub.published) {
        assert sub in subs ==> sub.published == old(sub.published) + [e];
      }
      Drop(d, e, subs, failed);
    }

    /** What the subscription was offered is a stretch of the stream of its dialog once `e` is added for `d`. */
    ghost predicate FollowsOn(sub: Subscription, d: Dialog, e: Event, published: seq<Event>) reads this {
      var all := StreamOf(streams, sub.dialogId);
      IsStretch(if sub.dialogId == d then all + [e] else all, sub.from, published)
    }

    lemma KeepsUp(sub: Subscription, d: Dialog, e: Event)
      requires Follows(sub)
      ensures FollowsOn(sub, d, e, sub.published)
      ensures sub.dialogId == d && Serves(sub) ==> FollowsOn(sub, d, e, sub.published + [e])
    {
      StretchStays(StreamOf(streams, sub.dialogId), e, sub.from, sub.published);
    }

    /** `difference_update`: the overflowed subscriptions leave, and the dialog with the last of them. */
    method Drop(d: Dialog, e: Event, subs: set<Subscription>, failed: set<Subscription>)
      requires queueSize > 0 && subs == (if d in subscribers then subscribers[d] else {})
      requires failed == set sub | sub in subs && sub.closed
      requires served <= everOpened
      requires forall sub :: sub in everOpened ==> sub.Valid() && FollowsOn(sub, d, e, sub.published)
      requires forall sub :: sub in served && sub.dialogId != d ==> Serves(sub)
      requires forall sub :: sub in served && sub.dialogId == d ==> sub in subs
      requires forall k, sub :: k in subscribers && sub in subscribers[k] ==> sub in served && sub.dialogId == k
      requires forall sub :: sub in subs ==>
        sub.size == queueSize && sub.from + |sub.published| == |StreamOf(streams, d)| + 1
      modifies this
      ensures Valid() && closed == old(closed) && everOpened == old(everOpened)
      ensures streams == old(streams)[d := StreamOf(old(streams), d) + [e]]
      ensures forall sub :: sub in served <==> sub in old(served) && sub !in failed
    {
      assert forall sub :: sub in subs ==> sub in served && sub.dialogId == d;
      streams := streams[d := StreamOf(streams, d) + [e]];
      served := served - failed;
      subscribers := if subs - failed == {} then subscribers - {d} else subscribers[d := subs - failed];
      forall sub | sub in everOpened ensures Follows(sub) {
        assert old(FollowsOn(sub, d, e, sub.published));
      }
      forall sub | sub in served ensures Serves(sub) {
        if sub.dialogId == d {
          assert sub in subs - failed;
        } else {
          assert old(Serves(sub));
        }
      }
    }

    method Unsubscribe(sub: Subscription)
      requires Valid()
      modifies this, served
      ensures Valid() && streams == old(streams) && closed == old(closed) && everOpened == old(everOpened)
      ensures served == old(served) - {sub}
      ensures forall other :: other in old(served) ==>
        other.State() == if other == sub then Closed(old(other.State()), true) else old(other.State())
    {
      if sub.dialogId !in subscribers || sub !in subscribers[sub.dialogId] {
        return;
      }
      Leave(sub);
      sub.CloseQueue(true);
    }

    /** The subscription leaves, and the dialog with the last of them. */
    method Leave(sub: Subscription)
      requires Valid() && sub in served
      modifies this
      ensures Valid() && streams == old(streams) && closed == old(closed) && everOpened == old(everOpened)
      ensures served == old(served) - {sub}
    {
      assert Serves(sub);
      var d := sub.dialogId;
      var rest := subscribers[d] - {sub};
      subscribers := if rest == {} then subscribers - {d} else subscribers[d := rest];
      served := served - {sub};
      forall other | other in served ensures Serves(other) {
      }
    }

    method DrainAll(subs: set<Subscription>)
      requires forall sub :: sub in subs ==> sub.Valid()
      modifies subs
      ensures forall sub :: sub in subs ==> sub.Valid() && sub.State() == Closed(old(sub.State()), false)
      ensures forall sub :: sub in subs ==> sub.published == old(sub.published)
    {
      var rest := subs;
      while rest != {}
        invariant rest <= subs
        invariant forall sub :: sub in subs ==> sub.Valid()
        invariant forall sub :: sub in rest ==> sub.State() == old(sub.State())
        invariant forall sub :: sub in subs && sub !in rest ==> sub.State() == Closed(old(sub.State()), false)
      {
        var sub :| sub in rest;
        sub.CloseQueue(false);
        rest := rest - {sub};
      }
    }

    /** The subscriptions leave and are closed with their queues kept. */
    method Retire(subs: set<Subscription>, others: map<Dialog, set<Subscription>>)
      requires Valid() && subs <= served
      requires forall d, sub :: d in others && sub in others[d] ==> sub in served - subs && sub.dialogId == d
      requires forall sub :: sub in served - subs ==> sub.dialogId in others && sub in others[sub.dialogId]
      modifies this, served
      ensures Valid() && unchanged(`closed, `streams, `everOpened) && served == old(served) - subs
      ensures forall sub :: sub in subs ==> sub.State() == Closed(old(sub.State()), false)
      ensures forall sub :: sub in served ==> sub.State() == old(sub.State())
    {
      assert forall sub :: sub in served ==> Serves(sub);
      subscribers, served := others, served - subs;
      DrainAll(subs);
      forall sub | sub in everOpened ensures Follows(sub) {
        assert old(Follows(sub));
      }
    }

    method CloseDialog(d: Dialog)
      requires Valid()
      modifies this, served
      ensures Valid() && streams == old(streams) && closed == old(closed) && everOpened == old(everOpened)
      ensures forall sub :: sub in old(served) ==>
        sub.State() == if sub.dialogId == d then Closed(old(sub.State()), false) else old(sub.State())
      ensures forall sub :: sub in served <==> sub in old(served) && sub.dialogId != d
    {
      if d in subscribers {
        var subs := subscribers[d];
        assert forall sub :: sub in served ==> Serves(sub);
        Retire(subs, subscribers - {d});
      }
    }

    /** All subscriptions of all dialogs. */
    method AllSubscriptions() returns (subs: set<Subscription>)
      requires Valid()
      ensures subs == served
    {
      subs := set d, sub | d in subscribers && sub in subscribers[d] :: sub;
      forall sub ensures sub in subs <==> sub in served {
        if sub in subs {
          var d :| d in subscribers && sub in subscribers[d];
        }
        if sub in served {
          assert Serves(sub);
        }
      }
    }

    method Shutdown()
      requires Valid()
      modifies this, served
      ensures Valid() && closed && streams == old(streams) && everOpened == old(everOpened)
      ensures !old(closed) ==> served == {} && forall sub ::
        sub in old(served) ==> sub.State() == Closed(old(sub.State()), false)
      ensures old(closed) ==> served == old(served) && forall sub :: sub in served ==> sub.State() == old(sub.State())
    {
      if closed {
        return;
      }
      var subs := AllSubscriptions();
      closed := true;
      Retire(subs, map[]);
    }
  }

  /** A reader takes its events without the broker noticing. */
  twostate lemma ReceivingKeepsValid(broker: Broker, sub: Subscription)
    requires old(broker.Valid()) && sub in old(broker.everOpened) && unchanged(broker)
    requires sub.Valid() && sub.State() == Received(old(sub.State()))
    requires forall other :: other in broker.everOpened && other != sub ==> unchanged(other)
    ensures broker.Valid()
  {
    assert sub.State().published == old(sub.State().published) && sub.State().closed == old(sub.State().closed);
    forall other | other in broker.everOpened ensures broker.Follows(other) {
      assert old(broker.Follows(other));
    }
    forall other | other in broker.served ensures broker.Serves(other) {
      assert old(broker.Serves(other)) && other in broker.everOpened;
    }
  }

  /** An event was lost between the receptions `i` and `j`. */
  predicate LostBetween(t: Tape, i: nat, j: nat) {
    t.ending.Drained? && t.ending.lost == 1 && i < t.ending.at <= j
  }

  /** Where in the published events the `i`-th received one stands: one further after a lost event. */
  function PlaceOf(t: Tape, i: nat): nat {
    if t.ending.Drained? && i >= t.ending.at then i + t.ending.lost else i
  }

  lemma ReceivedStandsAt(t: Tape, i: nat)
    requires T.Valid(t) && i < |t.received|
    ensures PlaceOf(t, i) < |t.published| && t.received[i] == t.published[PlaceOf(t, i)]
  {
    if t.ending.Drained? {
      var all := t.published[..t.ending.at] + t.published[t.ending.at + t.ending.lost..t.ending.total];
      assert t.received[i] == (t.received + Pending(t.queue))[i] == all[i];
    } else if t.ending.Open? {
      assert t.received[i] == (t.received + Pending(t.queue))[i];
    }
  }

  /** With nothing lost between them, events received in a row stand in a row in the stream. */
  lemma ReceivedInARow(all: seq<Event>, from: nat, t: Tape, i: nat, j: nat) returns (at: nat)
    requires T.Valid(t) && IsStretch(all, from, t.published)
    requires i < j < |t.received| && !LostBetween(t, i, j)
    ensures at + (j - i) < |all| && all[at..at + (j - i) + 1] == t.received[i..j + 1]
  {
    at := from + PlaceOf(t, i);
    ReceivedStandsAt(t, j);
    var ours := t.received[i..j + 1];
    forall k | 0 <= k < |ours| ensures ours[k] == all[at..at + (j - i) + 1][k] {
      ReceivedStandsAt(t, i + k);
      assert PlaceOf(t, i + k) == PlaceOf(t, i) + k;
    }
  }

  /**
   * End to end: a reader of a stretch of a stream, whenever it joined and however its subscription ended, that
   * received a message from START to END with nothing lost in between has heard exactly the stored answer.
   */
  lemma ReceivedTextIsStored(steps: seq<Step>, d: Dialog, from: nat, t: Tape, i: nat, j: nat, id: nat)
    requires Runs(EMPTY, steps) && T.Valid(t) && IsStretch(Stream(Finally(EMPTY, steps), d), from, t.published)
    requires i < j < |t.received| && t.received[i] == Start && t.received[j] == End(id) && !LostBetween(t, i, j)
    requires forall k :: i < k < j ==> !t.received[k].Start?
    ensures Answered(Finally(EMPTY, steps).runs, d, id, Heard(t.received[i + 1..j]))
  {
    var all, n := Stream(Finally(EMPTY, steps), d), j - i;
    var at := ReceivedInARow(all, from, t, i, j);
    var ours := all[at..at + n + 1];
    assert all[at] == ours[0] && all[at + n] == ours[n];
    forall k | at < k < at + n ensures !all[k].Start? {
      assert all[k] == ours[k - at] == t.received[i + (k - at)];
    }
    SliceOfSlice(all, at, at + n + 1, 1, n);
    SliceOfSlice(t.received, i, j + 1, 1, n);
    SubscriberHeardTheAnswer(steps, d, at, at + n, id);
  }
}
