/** `frontend/src/auth-session.js`: many tabs, one cookie jar, one lock. */
module Tabs {
  import opened Wrappers
  import opened Clocks
  import opened Sessions

  /** A tab inside `refreshSession`; from `Holding` to the end it holds the lock. */
  datatype Phase =
    | Idle | Queued | Holding
    | Rejected                        // `me()` was answered with 401
    | Sent(shown: Uuid)               // a refresh request carries the token of this session
    | Answered(renewal: Option<Renewal>)
  {
    predicate Locked() {
      !Idle? && !Queued?
    }
  }

  /** Cookies set by a successful refresh: the new session's token and an access token with its expiry. */
  datatype Renewal = Renewal(session: Uuid, accessUntil: Time)

  /**
   * The server's sessions, the session whose token the jar holds, the expiry of the jar's access token, and the tabs.
   */
  datatype Browser = Browser(server: Table, session: Uuid, accessUntil: Time, now: Time, tabs: map<nat, Phase>)

  datatype Event =
    | Ask(tab: nat) | Acquire(tab: nat) | Me(tab: nat, reached: bool) | Send(tab: nat)
    | Serve(tab: nat, replacement: Session, accessUntil: Time) | Deliver(tab: nat)
    | Elsewhere(op: Op) | Tick(later: Time)

  /** `me()` succeeds: the access token is alive and its family not revoked. */
  ghost predicate Welcome(b: Browser) {
    b.accessUntil > b.now && b.session in b.server && !Dead(b.server, b.server[b.session].family)
  }

  predicate At(b: Browser, tab: nat, phase: Phase) {
    tab in b.tabs && b.tabs[tab] == phase
  }

  ghost predicate LockFree(b: Browser) {
    forall tab :: tab in b.tabs ==> !b.tabs[tab].Locked()
  }

  ghost predicate CanStep(b: Browser, e: Event) {
    match e
    case Ask(tab) => At(b, tab, Idle)
    case Acquire(tab) => At(b, tab, Queued) && LockFree(b)
    case Me(tab, _) => At(b, tab, Holding)
    case Send(tab) => At(b, tab, Rejected)
    case Serve(tab, x, _) =>
      tab in b.tabs && b.tabs[tab].Sent? && Allowed(b.server, Rotate(b.tabs[tab].shown, x, b.now))
    case Deliver(tab) => tab in b.tabs && b.tabs[tab].Answered?
    case Elsewhere(op) =>
      // Other devices and families: anything but another exchange in this family.
      Allowed(b.server, op)
        && (op.Rotate? ==> b.session in b.server && op.replacement.family != b.server[b.session].family)
    case Tick(later) => b.now <= later
  }

  /** What the server makes of a refresh request for session `shown`. */
  function Served(b: Browser, shown: Uuid, x: Session, accessUntil: Time): (Table, Option<Renewal>)
    requires shown in b.server
  {
    var current := b.server[shown];
    if !current.Active() then (Apply(b.server, RevokeFamily(current.family, b.now)), None)
    else if current.expiresAt <= b.now then (b.server, None)
    else (Apply(b.server, Rotate(shown, x, b.now)), Some(Renewal(x.id, accessUntil)))
  }

  ghost function After(b: Browser, e: Event): Browser
    requires CanStep(b, e)
  {
    match e
    case Ask(tab) => b.(tabs := b.tabs[tab := Queued])
    case Acquire(tab) => b.(tabs := b.tabs[tab := Holding])
    case Me(tab, reached) => b.(tabs := b.tabs[tab := if reached && !Welcome(b) then Rejected else Idle])
    case Send(tab) => b.(tabs := b.tabs[tab := Sent(b.session)])
    case Serve(tab, x, accessUntil) =>
      var (server, renewal) := Served(b, b.tabs[tab].shown, x, accessUntil);
      b.(server := server, tabs := b.tabs[tab := Answered(renewal)])
    case Deliver(tab) =>
      var renewal := b.tabs[tab].renewal;
      var done := b.(tabs := b.tabs[tab := Idle]);
      if renewal.Some? then done.(session := renewal.value.session, accessUntil := renewal.value.accessUntil) else done
    case Elsewhere(op) => b.(server := Apply(b.server, op))
    case Tick(later) => b.(now := later)
  }

  /** A session whose token has not been exchanged. */
  predicate Unspent(server: Table, id: Uuid) {
    id in server && server[id].replacedBy.None?
  }

  ghost predicate TabFits(b: Browser, tab: nat)
    requires tab in b.tabs
  {
    match b.tabs[tab]
    case Sent(shown) => shown == b.session && Unspent(b.server, shown)
    case Answered(Some(renewal)) =>
      Unspent(b.server, renewal.session) && b.session in b.server
        && b.server[renewal.session].family == b.server[b.session].family
    case _ => Unspent(b.server, b.session)
  }

  /** One tab at most holds the lock, and unless it is about to store a new token the jar's token is unspent. */
  ghost predicate InTurn(b: Browser) {
    && b.session in b.server
    && (forall s, t :: s in b.tabs && t in b.tabs && b.tabs[s].Locked() && b.tabs[t].Locked() ==> s == t)
    && (LockFree(b) ==> Unspent(b.server, b.session))
    && (forall tab :: tab in b.tabs && b.tabs[tab].Locked() ==> TabFits(b, tab))
  }

  lemma UnspentStays(server: Table, op: Op, id: Uuid)
    requires Allowed(server, op) && Unspent(server, id) && !(op.Rotate? && op.current == id)
    ensures Unspent(Apply(server, op), id) && Apply(server, op)[id].family == server[id].family
  {
  }

  lemma ElsewhereKeepsOrder(b: Browser, op: Op)
    requires InTurn(b) && CanStep(b, Elsewhere(op))
    ensures InTurn(After(b, Elsewhere(op)))
  {
    var a := After(b, Elsewhere(op));
    assert a.session in a.server && a.server[a.session].family == b.server[b.session].family;
    forall id | Unspent(b.server, id) && b.server[id].family == b.server[b.session].family
      ensures Unspent(a.server, id) && a.server[id].family == b.server[id].family
    {
      UnspentStays(b.server, op, id);
    }
    forall tab | tab in a.tabs && a.tabs[tab].Locked() ensures TabFits(a, tab) {
      assert TabFits(b, tab);
    }
  }

  lemma ServingKeepsOrder(b: Browser, e: Event)
    requires InTurn(b) && e.Serve? && CanStep(b, e)
    ensures InTurn(After(b, e))
  {
    assert TabFits(b, e.tab);
    var a, shown := After(b, e), b.session;
    assert forall tab :: tab in a.tabs && a.tabs[tab].Locked() ==> tab == e.tab;
    assert a.session in a.server && a.server[shown].family == b.server[shown].family;
    assert e.replacement.New();
    assert TabFits(a, e.tab);
  }

  /** No tab but the one that moves has the lock before or after. */
  lemma OnlyLocked(b: Browser, e: Event, tab: nat)
    requires InTurn(b) && CanStep(b, e)
      && (e == Acquire(tab) || (e.Me? && e.tab == tab) || e == Send(tab) || e == Deliver(tab))
    ensures forall other :: other in After(b, e).tabs && After(b, e).tabs[other].Locked() ==> other == tab
    ensures b.tabs[tab].Locked() ==> TabFits(b, tab)
  {
  }

  /** Every step keeps the jar's token unspent whenever the lock is free. */
  lemma StepKeepsOrder(b: Browser, e: Event)
    requires InTurn(b) && CanStep(b, e)
    ensures InTurn(After(b, e))
  {
    match e
    case Elsewhere(op) => ElsewhereKeepsOrder(b, op);
    case Serve(_, _, _) => ServingKeepsOrder(b, e);
    case Tick(_) => {
      forall tab | tab in b.tabs && b.tabs[tab].Locked() ensures TabFits(After(b, e), tab) {
        assert TabFits(b, tab);
      }
    }
    case Ask(tab) => {
      forall other | other in b.tabs && b.tabs[other].Locked() ensures TabFits(After(b, e), other) {
        assert TabFits(b, other);
      }
      if LockFree(After(b, e)) {
        assert LockFree(b) by {
          forall other | other in b.tabs ensures !b.tabs[other].Locked() {
            assert other in After(b, e).tabs;
          }
        }
      }
    }
    case Acquire(tab) => OnlyLocked(b, e, tab);
    case Me(tab, _) => OnlyLocked(b, e, tab);
    case Send(tab) => OnlyLocked(b, e, tab);
    case Deliver(tab) => OnlyLocked(b, e, tab);
  }

  ghost predicate Runs(b: Browser, events: seq<Event>)
    decreases |events|
  {
    events == [] || (CanStep(b, events[0]) && Runs(After(b, events[0]), events[1..]))
  }

  ghost function Finally(b: Browser, events: seq<Event>): Browser
    requires Runs(b, events)
    decreases |events|
  {
    if events == [] then b else Finally(After(b, events[0]), events[1..])
  }

  /** Every token presented in the run belongs to a session not exchanged before. */
  ghost predicate PresentsUnspent(b: Browser, events: seq<Event>)
    requires Runs(b, events)
    decreases |events|
  {
    events == [] ||
    ((events[0].Serve? ==> Unspent(b.server, b.tabs[events[0].tab].shown))
      && PresentsUnspent(After(b, events[0]), events[1..]))
  }

  /** However the tabs interleave, no refresh token is presented after it was exchanged. */
  lemma {:induction false} NoTokenIsPresentedTwice(b: Browser, events: seq<Event>)
    requires InTurn(b) && Runs(b, events)
    ensures PresentsUnspent(b, events) && InTurn(Finally(b, events))
    decreases |events|
  {
    if events != [] {
      if events[0].Serve? {
        assert TabFits(b, events[0].tab);
      }
      StepKeepsOrder(b, events[0]);
      NoTokenIsPresentedTwice(After(b, events[0]), events[1..]);
    }
  }

  /** Whenever the lock is free, the jar holds the active token of its family, if the family still has one. */
  lemma JarHoldsTheActiveToken(b: Browser, chains: Chains, id: Uuid)
    requires InTurn(b) && LockFree(b) && Linked(b.server, chains)
    requires id in b.server && b.server[id].Active() && b.server[id].family == b.server[b.session].family
    ensures id == b.session
  {
    LinkedMeans(b.server, chains);
    var f := b.server[id].family;
    var chain := chains[f];
    ActiveEndsChain(b.server, f, chain, id);
    var i :| 0 <= i < |chain| && chain[i] == b.session;
    assert i < |chain| - 1 ==> Links(b.server, chain[i], chain[i + 1]);
  }

  /**
   * So a refresh fails only on a family revoked elsewhere or a session past its time, and never revokes a live family.
   */
  lemma RefreshSucceedsOnLiveFamily(b: Browser, e: Event)
    requires InTurn(b) && e.Serve? && CanStep(b, e)
    requires b.server[b.session].Active() && b.server[b.session].expiresAt > b.now
    ensures After(b, e).tabs[e.tab] == Answered(Some(Renewal(e.replacement.id, e.accessUntil)))
    ensures !Dead(After(b, e).server, b.server[b.session].family)
  {
    assert TabFits(b, e.tab);
    assert After(b, e).server[e.replacement.id].Active();
  }

  /** A tab that waited finds the session another tab has just renewed, and leaves it alone. */
  lemma WaitingTabFindsRenewal(b: Browser, first: nat, second: nat)
    requires InTurn(b) && CanStep(b, Deliver(first)) && b.tabs[first].renewal.Some? && At(b, second, Queued)
    requires b.tabs[first].renewal.value.accessUntil > b.now && !Dead(b.server, b.server[b.session].family)
    ensures var delivered := After(b, Deliver(first));
      CanStep(delivered, Acquire(second)) && CanStep(After(delivered, Acquire(second)), Me(second, true))
    ensures var found := After(After(After(b, Deliver(first)), Acquire(second)), Me(second, true));
      At(found, second, Idle) && found.server == b.server && found.session == b.tabs[first].renewal.value.session
  {
    assert TabFits(b, first);
    var delivered := After(b, Deliver(first));
    assert LockFree(delivered);
    assert Welcome(delivered);
  }

  /** A browser whose tabs are all idle and whose jar holds an active token starts in turn. */
  lemma IdleBrowserIsInTurn(b: Browser, chains: Chains)
    requires forall tab :: tab in b.tabs ==> b.tabs[tab].Idle?
    requires Linked(b.server, chains) && b.session in b.server && b.server[b.session].Active()
    ensures InTurn(b) && LockFree(b)
  {
    LinkedMeans(b.server, chains);
    var f := b.server[b.session].family;
    ActiveEndsChain(b.server, f, chains[f], b.session);
  }

  /** Without the lock a tab goes straight to its refresh request. */
  function Hurried(b: Browser, tab: nat): Browser {
    b.(tabs := b.tabs[tab := Rejected])
  }

  /** Two tabs that do not wait for each other and read the jar before either is answered. */
  function Race(s: nat, t: nat, x: Session, y: Session, until: Time): seq<Event> {
    [Send(s), Send(t), Serve(s, x, until), Serve(t, y, until)]
  }

  /** Without the lock the second of two tabs presents a used token, and the family of both is ended. */
  lemma WithoutLockTheFamilyDies(b: Browser, s: nat, t: nat, x: Session, y: Session, until: Time)
    requires At(b, s, Idle) && At(b, t, Idle) && s != t
    requires b.session in b.server && b.server[b.session].Active() && b.server[b.session].expiresAt > b.now
    requires Allowed(b.server, Rotate(b.session, x, b.now))
    requires Allowed(Apply(b.server, Rotate(b.session, x, b.now)), Rotate(b.session, y, b.now))
    ensures var start := Hurried(Hurried(b, s), t);
      && Runs(start, Race(s, t, x, y, until))
      && var end := Finally(start, Race(s, t, x, y, until));
         && At(end, s, Answered(Some(Renewal(x.id, until)))) && At(end, t, Answered(None))
         && b.session in end.server && Dead(end.server, b.server[b.session].family)
  {
    var start, events := Hurried(Hurried(b, s), t), Race(s, t, x, y, until);
    var one := After(start, events[0]);
    var two := After(one, events[1]);
    var three := After(two, events[2]);
    var four := After(three, events[3]);
    assert events[1..] == [Send(t), Serve(s, x, until), Serve(t, y, until)];
    assert events[1..][1..] == [Serve(s, x, until), Serve(t, y, until)];
    assert events[1..][1..][1..] == [Serve(t, y, until)];
    assert events[1..][1..][1..][1..] == [];
    assert Runs(four, []) && Finally(four, []) == four;
    assert Runs(three, [Serve(t, y, until)]) && Finally(three, [Serve(t, y, until)]) == four;
    assert Runs(two, events[1..][1..]) && Finally(two, events[1..][1..]) == four;
    assert Runs(one, events[1..]) && Finally(one, events[1..]) == four;
  }
}
