/** `InMemoryHistoryStore` (`dialogs/history.py`). */
module History {
  import opened Wrappers
  import opened Clocks
  import opened Messages
  import Titles
  import D = Dialogs
  import opened Dialogs

  datatype HistoryError = DialogNotFound | MessageNotFound | ReportExists

  datatype ReportState = Sent | Handled

  datatype Line = Line(message: StoredMessage, createdAt: Time, rating: Option<int>, report: Option<ReportState>)

  lemma {:induction false} NearestRequestStops(messages: seq<StoredMessage>, i: nat)
    requires i <= |messages| && forall j :: i <= j < |messages| ==> !messages[j].role.User?
    ensures NearestRequest(messages) == NearestRequest(messages[..i])
  {
    if i < |messages| {
      var n := |messages| - 1;
      NearestRequestStops(messages[..n], i);
      assert messages[..n][..i] == messages[..i];
    } else {
      assert messages[..i] == messages;
    }
  }

  lemma {:induction false} FirstRequestTitles(stored: seq<StoredMessage>, i: nat)
    requires i < |stored| && stored[i].role.User? && forall j :: 0 <= j < i ==> !stored[j].role.User?
    ensures TitleOf(stored) == Some(Titles.DialogTitle(stored[i].content))
  {
    var n := |stored| - 1;
    if i < n {
      FirstRequestTitles(stored[..n], i);
    } else {
      NoRequestNoTitle(stored[..n]);
    }
  }

  lemma {:induction false} NoRequestNoTitle(stored: seq<StoredMessage>)
    requires forall j :: 0 <= j < |stored| ==> !stored[j].role.User?
    ensures TitleOf(stored) == None
  {
    if stored != [] {
      NoRequestNoTitle(stored[..|stored| - 1]);
    }
  }

  function SeenOnly(reports: map<nat, Report>, done: set<nat>, now: Time): map<nat, Report> {
    map k | k in reports :: if k in done then reports[k].(seenAt := Some(now)) else reports[k]
  }

  lemma SeenOneMore(reports: map<nat, Report>, done: set<nat>, k: nat, now: Time)
    requires k in reports && k !in done
    ensures SeenOnly(reports, done, now)[k] == reports[k]
    ensures SeenOnly(reports, done + {k}, now) == SeenOnly(reports, done, now)[k := reports[k].(seenAt := Some(now))]
  {
  }

  /** Message `id` is an answer in the owner's own dialog. */
  ghost predicate OwnAnswer(s: Store, owner: Uuid, d: Uuid, id: nat) {
    d in s.dialogs && s.dialogs[d].owner == owner && exists i :: IsAnswer(s, d, i, id)
  }

  ghost predicate IsReported(s: Store, id: nat) {
    exists k :: k in s.reports && s.reports[k].messageId == Some(id)
  }

  class HistoryStore {
    const clock: Clock
    var dialogs: map<Uuid, Dialog>
    var feedback: map<nat, int>
    var reports: map<nat, Report>
    var nextMessage: nat
    var nextReport: nat

    ghost function Contents(): Store reads this {
      Store(dialogs, feedback, reports, nextMessage, nextReport)
    }

    ghost predicate Valid() reads this {
      Sound(Contents())
    }

    constructor (clock: Clock)
      ensures Valid() && Contents() == D.EMPTY && this.clock == clock
    {
      this.clock := clock;
      dialogs, feedback, reports, nextMessage, nextReport := map[], map[], map[], 1, 1;
      new;
      D.EmptyIsSound();
    }

    /** `d` is a newly drawn UUID. */
    method CreateDialog(owner: Uuid, d: Uuid)
      requires Valid() && d !in dialogs
      modifies this, clock
      ensures Valid() && Contents() == Created(old(Contents()), d, owner, clock.now)
      ensures dialogs == old(dialogs)[d := Dialog(owner, clock.now, clock.now, None, [], [])]
      ensures unchanged(`feedback, `reports, `nextMessage, `nextReport)
    {
      var now := clock.Read();
      CreateKeepsSound(Contents(), d, owner, now);
      dialogs := dialogs[d := Dialog(owner, now, now, None, [], [])];
    }

    method Get(owner: Uuid, d: Uuid) returns (r: Result<seq<Message>, HistoryError>)
      ensures r.Ok? <==> d in dialogs && dialogs[d].owner == owner
      ensures r.Ok? ==> r.value == Plain(dialogs[d].messages)
    {
      r := if d in dialogs && dialogs[d].owner == owner then Ok(Plain(dialogs[d].messages)) else Err(DialogNotFound);
    }

    /** The title of the first user message among new ones. */
    method FirstTitle(stored: seq<StoredMessage>) returns (title: Option<Text>)
      ensures title == TitleOf(stored)
    {
      for i := 0 to |stored|
        invariant forall j :: 0 <= j < i ==> !stored[j].role.User?
      {
        if stored[i].role.User? {
          FirstRequestTitles(stored, i);
          return Some(Titles.DialogTitle(stored[i].content));
        }
      }
      NoRequestNoTitle(stored);
      title := None;
    }

    /** All messages are appended with the next ids, or nothing is. */
    method Append(d: Uuid, messages: seq<(Role, Text)>) returns (r: Result<seq<nat>, HistoryError>)
      requires Valid()
      modifies this, clock
      ensures Valid()
      ensures r.Ok? <==> d in old(dialogs)
      ensures r.Ok? ==> Contents() == Appended(old(Contents()), d, messages, clock.now)
      ensures r.Ok? ==>
        |r.value| == |messages| && forall i :: 0 <= i < |messages| ==> r.value[i] == old(nextMessage) + i
      ensures r.Err? ==> Contents() == old(Contents())
    {
      if d !in dialogs {
        return Err(DialogNotFound);
      }
      SoundMeans(Contents());
      AppendKeepsSound(Contents(), d, messages, clock.now);
      var now := clock.Read();
      ghost var before := Contents();
      AppendKeepsSound(before, d, messages, now);
      var stored := Numbered(messages, nextMessage);
      nextMessage := nextMessage + |messages|;
      var dialog := dialogs[d];
      var title := dialog.title;
      TitleOfMore(dialog.messages, stored);
      if title.None? {
        title := FirstTitle(stored);
      }
      var stamps := dialog.stamps + seq(|messages|, _ => now);
      dialogs := dialogs[d := dialog.(
        messages := dialog.messages + stored, stamps := stamps, title := title, updatedAt := now)];
      assert Contents() == Appended(before, d, messages, now);
      r := Ok(seq(|messages|, i requires 0 <= i < |messages| => stored[i].id));
    }

    /** `delete`: ratings one by one, then the reports of the messages, then the dialog. */
    method Delete(owner: Uuid, d: Uuid) returns (r: Result<(), HistoryError>)
      requires Valid()
      modifies this
      ensures Valid()
      ensures r.Ok? <==> d in old(dialogs) && old(dialogs)[d].owner == owner
      ensures r.Ok? ==> OnlyWithout(old(Contents()), Contents(), d)
      ensures r.Err? ==> Contents() == old(Contents())
    {
      if d !in dialogs || dialogs[d].owner != owner {
        return Err(DialogNotFound);
      }
      ghost var before := Contents();
      DeleteKeepsSound(before, d);
      var ids := IdsIn(dialogs[d]);
      DropRatings(dialogs[d], ids);
      DetachReports(ids);
      dialogs := dialogs - {d};
      assert Contents() == Deleted(before, d);
      DeleteSpares(before, d);
      r := Ok(());
    }

    method DropRatings(d: Dialog, ghost ids: set<nat>)
      requires ids == IdsIn(d)
      modifies `feedback
      ensures feedback == old(feedback) - ids
    {
      for i := 0 to |d.messages|
        invariant feedback == old(feedback) - (set j | 0 <= j < i :: d.messages[j].id)
      {
        feedback := feedback - {d.messages[i].id};
      }
    }

    method DetachReports(ids: set<nat>)
      modifies `reports
      ensures reports == map k | k in old(reports) :: Detached(old(reports)[k], ids)
    {
      var rest := reports.Keys;
      while rest != {}
        invariant rest <= reports.Keys == old(reports).Keys
        invariant forall k :: k in rest ==> reports[k] == old(reports)[k]
        invariant forall k :: k in reports && k !in rest ==> reports[k] == Detached(old(reports)[k], ids)
      {
        var k :| k in rest;
        if reports[k].messageId.Some? && reports[k].messageId.value in ids {
          reports := reports[k := reports[k].(messageId := None)];
        }
        rest := rest - {k};
      }
    }

    /** `_answer`: where the assistant message stands, if the dialog is the owner's and has it. */
    method FindAnswer(owner: Uuid, d: Uuid, id: nat) returns (at: Option<nat>)
      ensures at.Some? ==> d in dialogs && dialogs[d].owner == owner && IsAnswer(Contents(), d, at.value, id)
      ensures at.Some? <==> OwnAnswer(Contents(), owner, d, id)
    {
      if d !in dialogs || dialogs[d].owner != owner {
        return None;
      }
      var messages := dialogs[d].messages;
      for i := 0 to |messages|
        invariant forall j :: 0 <= j < i ==> !(messages[j].id == id && messages[j].role.Assistant?)
      {
        if messages[i].id == id && messages[i].role.Assistant? {
          assert IsAnswer(Contents(), d, i, id);
          return Some(i);
        }
      }
      at := None;
    }

    method SetFeedback(owner: Uuid, d: Uuid, id: nat, score: int) returns (r: Result<(), HistoryError>)
      requires Valid()
      modifies this
      ensures Valid()
      ensures r.Ok? <==> OwnAnswer(old(Contents()), owner, d, id)
      ensures r.Err? ==> r.error == MessageNotFound
      ensures unchanged(`dialogs, `reports, `nextMessage, `nextReport)
      ensures feedback == if r.Ok? then old(feedback)[id := score] else old(feedback)
    {
      var at := FindAnswer(owner, d, id);
      if at.None? {
        return Err(MessageNotFound);
      }
      RateKeepsSound(Contents(), d, at.value, id, score);
      feedback := feedback[id := score];
      r := Ok(());
    }

    method ClearFeedback(owner: Uuid, d: Uuid, id: nat) returns (r: Result<(), HistoryError>)
      requires Valid()
      modifies this
      ensures Valid()
      ensures r.Ok? <==> OwnAnswer(old(Contents()), owner, d, id)
      ensures r.Err? ==> r.error == MessageNotFound
      ensures unchanged(`dialogs, `reports, `nextMessage, `nextReport)
      ensures feedback == if r.Ok? then old(feedback) - {id} else old(feedback)
    {
      var at := FindAnswer(owner, d, id);
      if at.None? {
        return Err(MessageNotFound);
      }
      RateKeepsSound(Contents(), d, at.value, id, 0);
      feedback := feedback - {id};
      r := Ok(());
    }

    /** `_report_state`: the state of a report of the message; there is at most one. */
    method FindReport(id: nat) returns (k: Option<nat>)
      ensures k.Some? ==> k.value in reports && reports[k.value].messageId == Some(id)
      ensures k.Some? <==> IsReported(Contents(), id)
    {
      var rest := reports.Keys;
      while rest != {}
        invariant rest <= reports.Keys
        invariant forall l :: l in reports && l !in rest ==> reports[l].messageId != Some(id)
      {
        var l :| l in rest;
        if reports[l].messageId == Some(id) {
          return Some(l);
        }
        rest := rest - {l};
      }
      k := None;
    }

    /** The user text nearest before a position, searched backwards. */
    method RequestBefore(messages: seq<StoredMessage>) returns (request: Option<Text>)
      ensures request == NearestRequest(messages)
    {
      var i := |messages|;
      while i > 0
        invariant 0 <= i <= |messages|
        invariant forall j :: i <= j < |messages| ==> !messages[j].role.User?
      {
        i := i - 1;
        if messages[i].role.User? {
          NearestRequestStops(messages, i + 1);
          assert messages[..i + 1][..i] == messages[..i];
          return Some(messages[i].content);
        }
      }
      NearestRequestStops(messages, 0);
      request := None;
    }

    /** A first report of an answer quotes it with the nearest request; a second one is refused. */
    method MakeReport(owner: Uuid, d: Uuid, id: nat, reason: Reason, comment: Option<Text>)
      returns (r: Result<nat, HistoryError>, ghost at: nat)
      requires Valid()
      modifies this, clock
      ensures Valid()
      ensures r.Ok? ==>
        r.value == old(nextReport) && IsAnswer(old(Contents()), d, at, id) && old(dialogs)[d].owner == owner
      ensures r.Ok? ==> unchanged(`dialogs, `feedback, `nextMessage) && nextReport == old(nextReport) + 1
      ensures r.Ok? ==>
        var messages := old(dialogs)[d].messages;
        reports == old(reports)[r.value := Report(
          r.value, Some(id), owner, reason, comment, NearestRequest(messages[..at]), messages[at].content, clock.now,
          New, None, None)]
      ensures r.Ok? <==> OwnAnswer(old(Contents()), owner, d, id) && !IsReported(old(Contents()), id)
      ensures r == Err(MessageNotFound) <==> !OwnAnswer(old(Contents()), owner, d, id)
      ensures r == Err(ReportExists) <==> OwnAnswer(old(Contents()), owner, d, id) && IsReported(old(Contents()), id)
      ensures r.Err? ==> Contents() == old(Contents())
    {
      at := 0;
      var found := FindAnswer(owner, d, id);
      if found.None? {
        return Err(MessageNotFound), at;
      }
      var known := FindReport(id);
      if known.Some? {
        return Err(ReportExists), at;
      }
      at := found.value;
      var messages := dialogs[d].messages;
      var request := RequestBefore(messages[..found.value]);
      var now := clock.Read();
      ReportKeepsSound(Contents(), d, found.value, id, reason, comment, now);
      var report := Report(nextReport, Some(id), owner, reason, comment, request, messages[found.value].content, now,
        New, None, None);
      reports := reports[report.id := report];
      nextReport := nextReport + 1;
      r := Ok(report.id);
    }

    /** Marks the user's reviewed, unseen reports among `ids`, skipping all others, and counts them. */
    method MarkSeen(user: Uuid, ids: set<nat>) returns (marked: nat)
      requires Valid()
      modifies this, clock
      ensures Valid() && unchanged(`dialogs, `feedback, `nextMessage, `nextReport)
      ensures reports.Keys == old(reports).Keys && forall k :: k in reports ==>
        reports[k] ==
          var r := old(reports)[k];
          if k in ids && r.user == user && !r.status.New? && r.seenAt.None? then r.(seenAt := Some(clock.now)) else r
      ensures marked == |set k | k in ids && k in reports && reports[k] != old(reports)[k]|
    {
      var now := clock.Read();
      ghost var before := Contents();
      SeeKeepsSound(before, user, ids, now);
      marked := MarkEach(user, ids, now);
      assert Contents() == Seen(before, user, ids, now);
      assert (set k | k in ids && k in reports && reports[k] != old(reports)[k]) ==
        set k | k in ids && IsNews(before, k, user);
    }

    method MarkEach(user: Uuid, ids: set<nat>, now: Time) returns (marked: nat)
      modifies `reports
      ensures reports == Seen(old(Contents()), user, ids, now).reports
      ensures marked == |set k | k in ids && IsNews(old(Contents()), k, user)|
    {
      ghost var before := Contents();
      ghost var done: set<nat> := {};
      var rest := ids;
      marked := 0;
      while rest != {}
        invariant rest <= ids && done <= ids - rest && marked == |done|
        invariant forall k :: k in ids - rest ==> (k in done <==> IsNews(before, k, user))
        invariant reports == SeenOnly(before.reports, done, now)
      {
        var k :| k in rest;
        rest := rest - {k};
        if k in reports && reports[k].user == user && !reports[k].status.New? && reports[k].seenAt.None? {
          SeenOneMore(before.reports, done, k, now);
          reports := reports[k := reports[k].(seenAt := Some(now))];
          marked := marked + 1;
          done := done + {k};
        }
      }
      assert done == set k | k in ids && IsNews(before, k, user);
    }

    method SetReportStatus(k: nat, status: Status)
      requires Valid() && k in reports
      modifies this, clock
      ensures Valid() && unchanged(`dialogs, `feedback, `nextMessage, `nextReport)
      ensures var r := old(reports)[k];
        reports == old(reports)[k := if status.New? then r.(status := New, resolvedAt := None, seenAt := None)
                                     else r.(status := status, resolvedAt := Some(clock.now))]
    {
      JudgeKeepsSound(Contents(), k, status, clock.now);
      if status.New? {
        reports := reports[k := reports[k].(status := New, resolvedAt := None, seenAt := None)];
      } else {
        var now := clock.Read();
        JudgeKeepsSound(Contents(), k, status, now);
        reports := reports[k := reports[k].(status := status, resolvedAt := Some(now))];
      }
    }

    /** Each message with its rating and the state of its report. */
    method Transcript(owner: Uuid, d: Uuid)
      returns (r: Result<(Option<Text>, seq<Line>), HistoryError>)
      requires Valid()
      ensures r.Ok? <==> d in dialogs && dialogs[d].owner == owner
      ensures r.Ok? ==> r.value.0 == TitleOf(dialogs[d].messages) && |r.value.1| == |dialogs[d].messages|
      ensures r.Ok? ==> forall i :: 0 <= i < |r.value.1| ==> Shows(Contents(), d, i, r.value.1[i])
    {
      if d !in dialogs || dialogs[d].owner != owner {
        return Err(DialogNotFound);
      }
      SoundMeans(Contents());
      var messages := dialogs[d].messages;
      var items := [];
      for i := 0 to |messages|
        invariant |items| == i && forall j :: 0 <= j < i ==> Shows(Contents(), d, j, items[j])
      {
        var line := LineOf(d, i);
        items := items + [line];
      }
      r := Ok((dialogs[d].title, items));
    }

    method LineOf(d: Uuid, i: nat) returns (line: Line)
      requires Valid() && d in dialogs && i < |dialogs[d].messages| == |dialogs[d].stamps|
      ensures Shows(Contents(), d, i, line)
    {
      var m := dialogs[d].messages[i];
      var k := FindReport(m.id);
      var rating := if m.id in feedback then Some(feedback[m.id]) else None;
      var report := if k.None? then None else Some(if reports[k.value].status.New? then Sent else Handled);
      OnlyReport(k, m.id);
      line := Line(m, dialogs[d].stamps[i], rating, report);
    }

    lemma OnlyReport(k: Option<nat>, id: nat)
      requires Valid() && (k.Some? ==> k.value in reports && reports[k.value].messageId == Some(id))
      ensures k.Some? ==> forall l :: l in reports && reports[l].messageId == Some(id) ==> l == k.value
    {
      SoundMeans(Contents());
    }
  }

  /** A transcript line shows the message with its time, its rating, and the state of every report of it. */
  ghost predicate Shows(s: Store, d: Uuid, i: nat, line: Line)
    requires d in s.dialogs && i < |s.dialogs[d].messages|
  {
    var m := s.dialogs[d].messages[i];
    && line.message == m && i < |s.dialogs[d].stamps| && line.createdAt == s.dialogs[d].stamps[i]
    && line.rating == (if m.id in s.feedback then Some(s.feedback[m.id]) else None)
    && (line.report.None? ==> forall k :: k in s.reports ==> s.reports[k].messageId != Some(m.id))
    && forall k ::
         k in s.reports && s.reports[k].messageId == Some(m.id) ==>
         line.report == Some(if s.reports[k].status.New? then Sent else Handled)
  }
}
