/** The history store (`dialogs/history.py`) as values: its contents, operations and what they keep. */
module Dialogs {
  import opened Wrappers
  import opened Clocks
  import opened Messages
  import Titles

  type Uuid = nat

  /** `stamps` are the creation times of the messages. */
  datatype Dialog = Dialog(
    owner: Uuid, createdAt: Time, updatedAt: Time, title: Option<Text>, messages: seq<StoredMessage>,
    stamps: seq<Time>)

  datatype Status = New | Resolved | Dismissed

  datatype Reason = Scary | Rude | Wrong | OtherReason

  datatype Report = Report(
    id: nat, messageId: Option<nat>, user: Uuid, reason: Reason, comment: Option<Text>, request: Option<Text>,
    answer: Text,
    createdAt: Time, status: Status, resolvedAt: Option<Time>, seenAt: Option<Time>)

  datatype Store = Store(
    dialogs: map<Uuid, Dialog>, feedback: map<nat, int>, reports: map<nat, Report>, nextMessage: nat, nextReport: nat)

  // ---------------------------------------------------------------- messages

  predicate IsAt(s: Store, d: Uuid, i: nat, id: nat) {
    d in s.dialogs && i < |s.dialogs[d].messages| && s.dialogs[d].messages[i].id == id
  }

  predicate IsAnswer(s: Store, d: Uuid, i: nat, id: nat) {
    IsAt(s, d, i, id) && s.dialogs[d].messages[i].role.Assistant?
  }

  /** The user text nearest before the end. */
  function NearestRequest(messages: seq<StoredMessage>): Option<Text> {
    if messages == [] then None
    else if messages[|messages| - 1].role.User? then Some(messages[|messages| - 1].content)
    else NearestRequest(messages[..|messages| - 1])
  }

  /** Message `i` is the last one of the user. */
  predicate LastRequest(messages: seq<StoredMessage>, i: nat) {
    i < |messages| && messages[i].role.User? && forall j :: i < j < |messages| ==> !messages[j].role.User?
  }

  lemma {:induction false} NearestRequestMeans(messages: seq<StoredMessage>)
    ensures NearestRequest(messages).Some? ==>
      exists i: nat :: LastRequest(messages, i) && NearestRequest(messages) == Some(messages[i].content)
    ensures NearestRequest(messages).None? ==> forall i :: 0 <= i < |messages| ==> !messages[i].role.User?
  {
    if messages != [] {
      var n := |messages| - 1;
      if messages[n].role.User? {
        assert LastRequest(messages, n);
      } else {
        NearestRequestMeans(messages[..n]);
        if NearestRequest(messages).Some? {
          var i: nat :| LastRequest(messages[..n], i) && NearestRequest(messages) == Some(messages[..n][i].content);
          assert LastRequest(messages, i);
        }
      }
    }
  }

  function TitleOf(messages: seq<StoredMessage>): Option<Text> {
    if messages == [] then None
    else
      var before := TitleOf(messages[..|messages| - 1]);
      if before.Some? then before
      else if messages[|messages| - 1].role.User? then Some(Titles.DialogTitle(messages[|messages| - 1].content))
      else None
  }

  /** New messages get the next ids in order. */
  function Numbered(messages: seq<(Role, Text)>, next: nat): (r: seq<StoredMessage>)
    ensures |r| == |messages|
    ensures forall i :: 0 <= i < |r| ==> r[i] == StoredMessage(next + i, messages[i].0, messages[i].1)
  {
    seq(|messages|, i requires 0 <= i < |messages| => StoredMessage(next + i, messages[i].0, messages[i].1))
  }

  // ---------------------------------------------------------------- the invariant

  datatype Aspect = Ordered | Separate | Ratings | Reported | Single | Reviewed | Titled | Stamped

  /** The report holds the answer it is about and the user text nearest before it. */
  ghost predicate Quotes(s: Store, r: Report, d: Uuid, i: nat)
    requires r.messageId.Some?
  {
    && IsAnswer(s, d, i, r.messageId.value) && s.dialogs[d].owner == r.user
    && s.dialogs[d].messages[i].content == r.answer && NearestRequest(s.dialogs[d].messages[..i]) == r.request
  }

  ghost predicate Attached(s: Store, r: Report) {
    r.messageId.Some? ==> exists d, i :: Quotes(s, r, d, i)
  }

  ghost predicate Answered(s: Store, id: nat) {
    exists d, i :: IsAnswer(s, d, i, id)
  }

  /** Ids grow along a dialog and were all given out. */
  ghost predicate Rising(messages: seq<StoredMessage>, next: nat) {
    && (forall i, j :: 0 <= i < j < |messages| ==> messages[i].id < messages[j].id)
    && (forall i :: 0 <= i < |messages| ==> messages[i].id < next)
  }

  ghost predicate Holds(s: Store, aspect: Aspect) {
    match aspect
    case Ordered => forall d :: d in s.dialogs ==> Rising(s.dialogs[d].messages, s.nextMessage)
    case Separate => forall id, d, i, e, j :: IsAt(s, d, i, id) && IsAt(s, e, j, id) ==> d == e
    case Ratings => forall id :: id in s.feedback ==> Answered(s, id)
    case Reported => forall k :: k in s.reports ==> s.reports[k].id == k < s.nextReport && Attached(s, s.reports[k])
    case Single =>
      forall k, l | k in s.reports && l in s.reports ::
        s.reports[k].messageId.Some? && s.reports[k].messageId == s.reports[l].messageId ==> k == l
    case Reviewed => forall k :: k in s.reports ==>
      (s.reports[k].resolvedAt.Some? <==> !s.reports[k].status.New?)
        && (s.reports[k].seenAt.Some? ==> !s.reports[k].status.New?)
    case Titled => forall d :: d in s.dialogs ==> s.dialogs[d].title == TitleOf(s.dialogs[d].messages)
    case Stamped => forall d :: d in s.dialogs ==> |s.dialogs[d].stamps| == |s.dialogs[d].messages|
  }

  ghost predicate Sound(s: Store) {
    forall aspect :: Holds(s, aspect)
  }

  const EMPTY := Store(map[], map[], map[], 1, 1)

  // ---------------------------------------------------------------- operations

  function Appended(s: Store, d: Uuid, messages: seq<(Role, Text)>, now: Time): Store
    requires d in s.dialogs
  {
    var before := s.dialogs[d];
    var all := before.messages + Numbered(messages, s.nextMessage);
    var stamps := before.stamps + seq(|messages|, _ => now);
    var after := before.(messages := all, stamps := stamps, title := TitleOf(all), updatedAt := now);
    s.(dialogs := s.dialogs[d := after], nextMessage := s.nextMessage + |messages|)
  }

  function Created(s: Store, d: Uuid, owner: Uuid, now: Time): Store {
    s.(dialogs := s.dialogs[d := Dialog(owner, now, now, None, [], [])])
  }

  /** The ids of a dialog's messages. */
  function IdsIn(d: Dialog): (ids: set<nat>)
    ensures forall id :: id in ids <==> exists i :: 0 <= i < |d.messages| && d.messages[i].id == id
  {
    set i | 0 <= i < |d.messages| :: d.messages[i].id
  }

  function Detached(r: Report, ids: set<nat>): Report {
    if r.messageId.Some? && r.messageId.value in ids then r.(messageId := None) else r
  }

  /** The dialog goes with its ratings; its reports stay, detached. */
  function Deleted(s: Store, d: Uuid): Store
    requires d in s.dialogs
  {
    var ids := IdsIn(s.dialogs[d]);
    s.(dialogs := s.dialogs - {d}, feedback := s.feedback - ids,
       reports := map k | k in s.reports :: Detached(s.reports[k], ids))
  }

  function Rated(s: Store, id: nat, score: int): Store {
    s.(feedback := s.feedback[id := score])
  }

  function Unrated(s: Store, id: nat): Store {
    s.(feedback := s.feedback - {id})
  }

  function NewReport(s: Store, d: Uuid, i: nat, user: Uuid, reason: Reason, comment: Option<Text>, now: Time): Report
    requires d in s.dialogs && i < |s.dialogs[d].messages|
  {
    var messages := s.dialogs[d].messages;
    Report(s.nextReport, Some(messages[i].id), user, reason, comment, NearestRequest(messages[..i]),
      messages[i].content, now, New, None, None)
  }

  function ReportedIn(s: Store, r: Report): Store {
    s.(reports := s.reports[r.id := r], nextReport := s.nextReport + 1)
  }

  predicate IsNews(s: Store, k: nat, user: Uuid) {
    k in s.reports && s.reports[k].user == user && !s.reports[k].status.New? && s.reports[k].seenAt.None?
  }

  function Seen(s: Store, user: Uuid, ids: set<nat>, now: Time): Store {
    s.(reports := map k | k in s.reports ::
      if k in ids && IsNews(s, k, user) then s.reports[k].(seenAt := Some(now)) else s.reports[k])
  }

  function Judged(s: Store, k: nat, status: Status, now: Time): Store
    requires k in s.reports
  {
    var r := s.reports[k];
    var judged :=
      if status.New? then r.(status := New, resolvedAt := None, seenAt := None)
      else r.(status := status, resolvedAt := Some(now));
    s.(reports := s.reports[k := judged])
  }

  // ---------------------------------------------------------------- what the operations keep

  lemma EmptyIsSound()
    ensures Sound(EMPTY)
  {
  }

  lemma SoundMeans(s: Store)
    requires Sound(s)
    ensures Holds(s, Ordered) && Holds(s, Separate) && Holds(s, Ratings) && Holds(s, Reported)
    ensures Holds(s, Single) && Holds(s, Reviewed) && Holds(s, Titled) && Holds(s, Stamped)
  {
  }

  lemma {:induction false} TitleOfMore(a: seq<StoredMessage>, b: seq<StoredMessage>)
    ensures TitleOf(a + b) == if TitleOf(a).Some? then TitleOf(a) else TitleOf(b)
  {
    if b == [] {
      assert a + b == a;
    } else {
      TitleOfMore(a, b[..|b| - 1]);
      assert (a + b)[..|a + b| - 1] == a + b[..|b| - 1];
    }
  }

  /** The dialog alone grows: by these messages in order, each with the time of the append. */
  lemma AppendAdds(s: Store, d: Uuid, messages: seq<(Role, Text)>, now: Time)
    requires d in s.dialogs
    ensures var v := Appended(s, d, messages, now);
      && v == s.(dialogs := v.dialogs, nextMessage := s.nextMessage + |messages|)
      && v.dialogs.Keys == s.dialogs.Keys && (forall e :: e in s.dialogs && e != d ==> v.dialogs[e] == s.dialogs[e])
      && Grown(s.dialogs[d], v.dialogs[d], messages, s.nextMessage, now)
  {
  }

  ghost predicate Grown(before: Dialog, after: Dialog, messages: seq<(Role, Text)>, next: nat, now: Time) {
    && after.owner == before.owner && after.createdAt == before.createdAt && after.updatedAt == now
    && before.messages <= after.messages && |after.messages| == |before.messages| + |messages|
    && before.stamps <= after.stamps && |after.stamps| == |before.stamps| + |messages|
    && (forall j :: |before.messages| <= j < |after.messages| ==>
          var i := j - |before.messages|;
          after.messages[j] == StoredMessage(next + i, messages[i].0, messages[i].1))
    && forall j :: |before.stamps| <= j < |after.stamps| ==> after.stamps[j] == now
  }

  /** Every message is where it was after an append, and new ones only follow. */
  lemma AppendKeepsPlaces(s: Store, d: Uuid, messages: seq<(Role, Text)>, now: Time, e: Uuid, i: nat, id: nat)
    requires d in s.dialogs && IsAt(s, e, i, id)
    ensures IsAt(Appended(s, d, messages, now), e, i, id)
    ensures Appended(s, d, messages, now).dialogs[e].messages[..i + 1] == s.dialogs[e].messages[..i + 1]
    ensures Appended(s, d, messages, now).dialogs[e].owner == s.dialogs[e].owner
  {
  }

  lemma AppendKeepsOrder(s: Store, d: Uuid, messages: seq<(Role, Text)>, now: Time)
    requires Holds(s, Ordered) && Holds(s, Separate) && d in s.dialogs
    ensures Holds(Appended(s, d, messages, now), Ordered) && Holds(Appended(s, d, messages, now), Separate)
  {
    var v := Appended(s, d, messages, now);
    forall e | e in v.dialogs ensures Rising(v.dialogs[e].messages, v.nextMessage) {
      if e == d {
        assert Rising(s.dialogs[d].messages, s.nextMessage);
        AppendRises(s.dialogs[d].messages, messages, s.nextMessage);
      } else {
        assert Rising(s.dialogs[e].messages, s.nextMessage);
      }
    }
    forall id, a, i, b, j | IsAt(v, a, i, id) && IsAt(v, b, j, id) ensures a == b {
      PlaceBefore(s, d, messages, now, a, i, id);
      PlaceBefore(s, d, messages, now, b, j, id);
    }
  }

  lemma AppendRises(before: seq<StoredMessage>, messages: seq<(Role, Text)>, next: nat)
    requires Rising(before, next)
    ensures Rising(before + Numbered(messages, next), next + |messages|)
  {
  }

  lemma PlaceBefore(s: Store, d: Uuid, messages: seq<(Role, Text)>, now: Time, a: Uuid, i: nat, id: nat)
    requires Holds(s, Ordered) && d in s.dialogs && IsAt(Appended(s, d, messages, now), a, i, id)
    ensures if id < s.nextMessage then IsAt(s, a, i, id) else a == d
  {
  }

  /** Places of `v` are places of `s`. */
  ghost predicate NoNewPlaces(s: Store, v: Store) {
    forall d, i, id :: IsAt(v, d, i, id) ==> IsAt(s, d, i, id)
  }

  lemma SeparateStays(s: Store, v: Store)
    requires Holds(s, Separate) && NoNewPlaces(s, v)
    ensures Holds(v, Separate)
  {
    forall id, a, i, b, j | IsAt(v, a, i, id) && IsAt(v, b, j, id) ensures a == b {
      assert IsAt(s, a, i, id) && IsAt(s, b, j, id);
    }
  }

  /** Dialogs that are still there are as they were. */
  ghost predicate NoNewDialogs(s: Store, v: Store) {
    v.nextMessage == s.nextMessage && forall d :: d in v.dialogs ==> d in s.dialogs && v.dialogs[d] == s.dialogs[d]
  }

  lemma DialogsStay(s: Store, v: Store)
    requires Sound(s) && NoNewDialogs(s, v)
    ensures Holds(v, Ordered) && Holds(v, Titled) && Holds(v, Stamped) && Holds(v, Separate)
  {
    SoundMeans(s);
    SeparateStays(s, v);
  }

  ghost predicate KeepsAnswers(s: Store, v: Store, id: nat) {
    forall d, i :: IsAnswer(s, d, i, id) ==> IsAnswer(v, d, i, id)
  }

  lemma RatedStays(s: Store, v: Store)
    requires forall id :: id in v.feedback ==> Answered(s, id) && KeepsAnswers(s, v, id)
    ensures Holds(v, Ratings)
  {
    forall id | id in v.feedback ensures Answered(v, id) {
      var d, i :| IsAnswer(s, d, i, id);
      assert IsAnswer(v, d, i, id);
    }
  }

  ghost predicate KeepsQuotes(s: Store, v: Store, r: Report) {
    r.messageId.Some? ==> forall d, i :: Quotes(s, r, d, i) ==> Quotes(v, r, d, i)
  }

  lemma ReportedStays(s: Store, v: Store)
    requires forall k ::
      k in v.reports ==>
      v.reports[k].id == k < v.nextReport && Attached(s, v.reports[k]) && KeepsQuotes(s, v, v.reports[k])
    ensures Holds(v, Reported)
  {
    forall k | k in v.reports ensures Attached(v, v.reports[k]) {
      var r := v.reports[k];
      if r.messageId.Some? {
        var d, i :| Quotes(s, r, d, i);
        assert Quotes(v, r, d, i);
      }
    }
  }

  lemma AppendKeepsReferences(s: Store, d: Uuid, messages: seq<(Role, Text)>, now: Time)
    requires Holds(s, Ratings) && Holds(s, Reported) && d in s.dialogs
    ensures Holds(Appended(s, d, messages, now), Ratings) && Holds(Appended(s, d, messages, now), Reported)
  {
    var v := Appended(s, d, messages, now);
    RatedStays(s, v);
    forall k | k in v.reports ensures KeepsQuotes(s, v, v.reports[k]) {
      var r := v.reports[k];
      if r.messageId.Some? {
        forall e, i: nat | Quotes(s, r, e, i) ensures Quotes(v, r, e, i) {
          AppendKeepsPlaces(s, d, messages, now, e, i, r.messageId.value);
          assert v.dialogs[e].messages[..i] == s.dialogs[e].messages[..i];
        }
      }
    }
    ReportedStays(s, v);
  }

  lemma AppendKeepsSound(s: Store, d: Uuid, messages: seq<(Role, Text)>, now: Time)
    requires Sound(s) && d in s.dialogs
    ensures Sound(Appended(s, d, messages, now))
  {
    SoundMeans(s);
    AppendKeepsOrder(s, d, messages, now);
    AppendKeepsReferences(s, d, messages, now);
  }

  lemma CreateKeepsSound(s: Store, d: Uuid, owner: Uuid, now: Time)
    requires Sound(s) && d !in s.dialogs
    ensures Sound(Created(s, d, owner, now))
  {
    SoundMeans(s);
    var v := Created(s, d, owner, now);
    SeparateStays(s, v);
    RatedStays(s, v);
    ReportedStays(s, v);
  }

  lemma DeletedPlaces(s: Store, d: Uuid)
    requires Holds(s, Separate) && d in s.dialogs
    ensures NoNewPlaces(s, Deleted(s, d))
    ensures forall e, i, id :: IsAt(s, e, i, id) && id !in IdsIn(s.dialogs[d]) ==> IsAt(Deleted(s, d), e, i, id)
  {
    forall e, i, id | IsAt(s, e, i, id) && id !in IdsIn(s.dialogs[d]) ensures e != d {
    }
  }

  lemma DeleteKeepsRatings(s: Store, d: Uuid)
    requires Holds(s, Separate) && Holds(s, Ratings) && d in s.dialogs
    ensures Holds(Deleted(s, d), Ratings)
  {
    DeletedPlaces(s, d);
    RatedStays(s, Deleted(s, d));
  }

  lemma DeleteKeepsReports(s: Store, d: Uuid)
    requires Holds(s, Separate) && Holds(s, Reported) && d in s.dialogs
    ensures Holds(Deleted(s, d), Reported)
  {
    DeletedPlaces(s, d);
    var v := Deleted(s, d);
    forall k | k in v.reports ensures Attached(s, v.reports[k]) && KeepsQuotes(s, v, v.reports[k]) {
      assert Attached(s, s.reports[k]);
    }
    ReportedStays(s, v);
  }

  lemma DetachKeepsSingle(s: Store, v: Store, ids: set<nat>)
    requires Holds(s, Single) && Holds(s, Reviewed)
    requires v.reports == map k | k in s.reports :: Detached(s.reports[k], ids)
    ensures Holds(v, Single) && Holds(v, Reviewed)
  {
  }

  /** Deleting leaves no rating of a message that is gone, and detaches its reports without losing what they quote. */
  lemma DeleteKeepsSound(s: Store, d: Uuid)
    requires Sound(s) && d in s.dialogs
    ensures Sound(Deleted(s, d))
  {
    forall aspect ensures Holds(Deleted(s, d), aspect) {
      match aspect
      case Ratings => SoundMeans(s); DeleteKeepsRatings(s, d);
      case Reported => SoundMeans(s); DeleteKeepsReports(s, d);
      case Single => SoundMeans(s); DetachKeepsSingle(s, Deleted(s, d), IdsIn(s.dialogs[d]));
      case Reviewed => SoundMeans(s); DetachKeepsSingle(s, Deleted(s, d), IdsIn(s.dialogs[d]));
      case _ => DialogsStay(s, Deleted(s, d));
    }
  }

  /** The message stands in the dialog. */
  ghost predicate StandsIn(s: Store, d: Uuid, id: nat) {
    exists i :: IsAt(s, d, i, id)
  }

  /** Nothing goes with a dialog but the ratings of its messages and the links of reports to them. */
  ghost predicate OnlyWithout(s: Store, v: Store, d: Uuid) {
    && v.dialogs == s.dialogs - {d} && v.nextMessage == s.nextMessage && v.nextReport == s.nextReport
    && (forall id :: id in v.feedback <==> id in s.feedback && !StandsIn(s, d, id))
    && (forall id :: id in v.feedback ==> v.feedback[id] == s.feedback[id])
    && v.reports.Keys == s.reports.Keys
    && forall k :: k in s.reports ==> LinkCut(s, d, s.reports[k], v.reports[k])
  }

  /** The report is as it was, but for its link if the message stood in the dialog. */
  ghost predicate LinkCut(s: Store, d: Uuid, before: Report, after: Report) {
    && after == before.(messageId := after.messageId)
    && after.messageId ==
         if before.messageId.Some? && StandsIn(s, d, before.messageId.value) then None else before.messageId
  }

  lemma DeleteSpares(s: Store, d: Uuid)
    requires d in s.dialogs
    ensures OnlyWithout(s, Deleted(s, d), d)
  {
    forall id ensures id in IdsIn(s.dialogs[d]) <==> StandsIn(s, d, id) {
      if i :| 0 <= i < |s.dialogs[d].messages| && s.dialogs[d].messages[i].id == id {
        assert IsAt(s, d, i, id);
      }
    }
  }

  lemma RateKeepsSound(s: Store, d: Uuid, i: nat, id: nat, score: int)
    requires Sound(s) && IsAnswer(s, d, i, id)
    ensures Sound(Rated(s, id, score)) && Sound(Unrated(s, id))
  {
    SoundMeans(s);
    OnlyFeedbackDiffers(s, Rated(s, id, score));
    OnlyFeedbackDiffers(s, Unrated(s, id));
  }

  lemma ReportsStay(s: Store, v: Store)
    requires Sound(s) && v.dialogs == s.dialogs && v.reports == s.reports && v.nextReport == s.nextReport
    ensures Holds(v, Reported) && Holds(v, Single) && Holds(v, Reviewed)
  {
    SoundMeans(s);
    ReportedStays(s, v);
  }

  lemma OnlyFeedbackDiffers(s: Store, v: Store)
    requires Sound(s) && v == s.(feedback := v.feedback) && forall id :: id in v.feedback ==> Answered(s, id)
    ensures Sound(v)
  {
    forall aspect ensures Holds(v, aspect) {
      match aspect
      case Ratings => RatedStays(s, v);
      case Reported => ReportsStay(s, v);
      case Single => ReportsStay(s, v);
      case Reviewed => ReportsStay(s, v);
      case _ => DialogsStay(s, v);
    }
  }

  lemma ReportIsAttached(s: Store, d: Uuid, i: nat, id: nat, reason: Reason, comment: Option<Text>, now: Time)
    requires Holds(s, Reported) && IsAnswer(s, d, i, id)
    ensures Holds(ReportedIn(s, NewReport(s, d, i, s.dialogs[d].owner, reason, comment, now)), Reported)
  {
    var r := NewReport(s, d, i, s.dialogs[d].owner, reason, comment, now);
    assert Quotes(s, r, d, i);
    ReportedStays(s, ReportedIn(s, r));
  }

  lemma ReportIsSingle(s: Store, r: Report)
    requires Holds(s, Single) && Holds(s, Reviewed) && r.status.New? && r.resolvedAt.None? && r.seenAt.None?
    requires forall k :: k in s.reports ==> s.reports[k].messageId != r.messageId
    ensures Holds(ReportedIn(s, r), Single) && Holds(ReportedIn(s, r), Reviewed)
  {
  }

  /** A second report of a message is never made, so a new one is the only one and quotes what stands there. */
  lemma ReportKeepsSound(s: Store, d: Uuid, i: nat, id: nat, reason: Reason, comment: Option<Text>, now: Time)
    requires Sound(s) && IsAnswer(s, d, i, id) && forall k :: k in s.reports ==> s.reports[k].messageId != Some(id)
    ensures Sound(ReportedIn(s, NewReport(s, d, i, s.dialogs[d].owner, reason, comment, now)))
  {
    var r := NewReport(s, d, i, s.dialogs[d].owner, reason, comment, now);
    forall aspect ensures Holds(ReportedIn(s, r), aspect) {
      match aspect
      case Ratings => SoundMeans(s); RatedStays(s, ReportedIn(s, r));
      case Reported => SoundMeans(s); ReportIsAttached(s, d, i, id, reason, comment, now);
      case Single => SoundMeans(s); ReportIsSingle(s, r);
      case Reviewed => SoundMeans(s); ReportIsSingle(s, r);
      case _ => DialogsStay(s, ReportedIn(s, r));
    }
  }

  predicate SameQuote(a: Report, b: Report) {
    a.id == b.id && a.messageId == b.messageId && a.user == b.user && a.request == b.request && a.answer == b.answer
  }

  lemma SameQuoteAttached(s: Store, a: Report, b: Report)
    requires SameQuote(a, b) && Attached(s, a)
    ensures Attached(s, b)
  {
    if b.messageId.Some? {
      var d, i :| Quotes(s, a, d, i);
      assert Quotes(s, b, d, i);
    }
  }

  lemma JudgementsStayAttached(s: Store, v: Store)
    requires Sound(s) && v == s.(reports := v.reports) && v.reports.Keys == s.reports.Keys
    requires forall k :: k in v.reports ==> SameQuote(s.reports[k], v.reports[k])
    ensures Holds(v, Reported) && Holds(v, Single)
  {
    SoundMeans(s);
    forall k | k in v.reports ensures Attached(s, v.reports[k]) {
      SameQuoteAttached(s, s.reports[k], v.reports[k]);
    }
    ReportedStays(s, v);
  }

  lemma OnlyJudgementsDiffer(s: Store, v: Store)
    requires Sound(s) && v == s.(reports := v.reports) && v.reports.Keys == s.reports.Keys && Holds(v, Reviewed)
    requires forall k :: k in v.reports ==> SameQuote(s.reports[k], v.reports[k])
    ensures Sound(v)
  {
    forall aspect ensures Holds(v, aspect) {
      match aspect
      case Ratings => SoundMeans(s); RatedStays(s, v);
      case Reported => JudgementsStayAttached(s, v);
      case Single => JudgementsStayAttached(s, v);
      case Reviewed =>
      case _ => DialogsStay(s, v);
    }
  }

  lemma SeeKeepsSound(s: Store, user: Uuid, ids: set<nat>, now: Time)
    requires Sound(s)
    ensures Sound(Seen(s, user, ids, now))
  {
    SoundMeans(s);
    OnlyJudgementsDiffer(s, Seen(s, user, ids, now));
  }

  lemma JudgeKeepsSound(s: Store, k: nat, status: Status, now: Time)
    requires Sound(s) && k in s.reports
    ensures Sound(Judged(s, k, status, now))
  {
    SoundMeans(s);
    OnlyJudgementsDiffer(s, Judged(s, k, status, now));
  }
}
