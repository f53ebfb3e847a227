/** Runs of a dialog (`application/agent_service.py`) as atomic steps between awaits, before shutdown. */
module DialogRuns {
  import opened Wrappers
  import opened Messages

  type Dialog = nat

  datatype Event = Start | Delta(text: Text) | End(messageId: nat) | Error

  datatype Stage =
    | Waiting      // for its predecessor
    | Started      // START is out
    | Running      // the agent has the history and yields events
    | Persisted    // the answer is stored
    | Failing      // an exception was raised
    | Done

  /** A run; its number is its place in the order of acceptance. `saved` is the stored question and answer. */
  datatype Run = Run(
    dialog: Dialog, request: Text, previous: Option<nat>, stage: Stage,
    history: seq<Message>, emitted: seq<AgentEvent>, saved: seq<StoredMessage>)

  datatype State = State(
    accepting: bool, runs: seq<Run>, tails: map<Dialog, nat>, tasks: set<nat>,
    known: set<Dialog>, dialogs: map<Dialog, seq<StoredMessage>>, nextId: nat, streams: map<Dialog, seq<Event>>)

  datatype Step =
    | Create(d: Dialog) | Delete(d: Dialog) | Submit(d: Dialog, request: Text)
    | Begin(t: nat) | Load(t: nat) | Emit(t: nat, event: AgentEvent) | Break(t: nat)
    | Persist(t: nat) | Finish(t: nat) | Fail(t: nat) | TaskDone(t: nat)

  // ---------------------------------------------------------------- steps

  function Stream(s: State, d: Dialog): seq<Event> {
    if d in s.streams then s.streams[d] else []
  }

  function Published(s: State, d: Dialog, e: Event): State {
    s.(streams := s.streams[d := Stream(s, d) + [e]])
  }

  predicate InStage(s: State, t: nat, stage: Stage) {
    t < |s.runs| && s.runs[t].stage == stage
  }

  predicate PredecessorDone(s: State, r: Run) {
    r.previous.None? || InStage(s, r.previous.value, Done)
  }

  predicate Responded(r: Run) {
    r.emitted != [] && r.emitted[|r.emitted| - 1].AgentResponse?
  }

  ghost predicate CanStep(s: State, step: Step) {
    match step
    case Create(d) => d !in s.known
    case Delete(d) => d in s.dialogs
    case Submit(d, _) => s.accepting && d in s.known    // it may have been deleted since `submit` looked
    case Begin(t) => InStage(s, t, Waiting) && PredecessorDone(s, s.runs[t])
    case Load(t) => InStage(s, t, Started)
    case Emit(t, e) => InStage(s, t, Running) && AgentStream(s.runs[t].emitted + [e])
    case Break(t) => InStage(s, t, Running)
    case Persist(t) => InStage(s, t, Running) && Responded(s.runs[t])
    case Finish(t) => InStage(s, t, Persisted)
    case Fail(t) => InStage(s, t, Failing)
    case TaskDone(t) => InStage(s, t, Done) && t in s.tasks
  }

  function WithRun(s: State, t: nat, r: Run): State
    requires t < |s.runs|
  {
    s.(runs := s.runs[t := r])
  }

  function Answer(r: Run): Text
    requires Responded(r)
  {
    r.emitted[|r.emitted| - 1].content
  }

  function Pair(id: nat, request: Text, answer: Text): seq<StoredMessage> {
    [StoredMessage(id, User, request), StoredMessage(id + 1, Assistant, answer)]
  }

  ghost function After(s: State, step: Step): State
    requires CanStep(s, step)
  {
    match step
    case Create(d) => s.(known := s.known + {d}, dialogs := s.dialogs[d := []])
    case Delete(d) => s.(dialogs := s.dialogs - {d})
    case Submit(d, request) =>
      var previous := if d in s.tails then Some(s.tails[d]) else None;
      s.(runs := s.runs + [Run(d, request, previous, Waiting, [], [], [])],
         tails := s.tails[d := |s.runs|], tasks := s.tasks + {|s.runs|})
    case Begin(t) => Published(WithRun(s, t, s.runs[t].(stage := Started)), s.runs[t].dialog, Start)
    case Load(t) =>
      var r := s.runs[t];
      WithRun(
        s, t,
        if r.dialog in s.dialogs then r.(stage := Running, history := Plain(s.dialogs[r.dialog]))
        else r.(stage := Failing))
    case Emit(t, e) =>
      var r := s.runs[t];
      var emitted := WithRun(s, t, r.(emitted := r.emitted + [e]));
      if e.AgentDelta? then Published(emitted, r.dialog, Delta(e.content)) else emitted
    case Break(t) => WithRun(s, t, s.runs[t].(stage := Failing))
    case Persist(t) =>
      var r := s.runs[t];
      if r.dialog in s.dialogs then
        var saved := Pair(s.nextId, r.request, Answer(r));
        WithRun(s, t, r.(stage := Persisted, saved := saved))
          .(dialogs := s.dialogs[r.dialog := s.dialogs[r.dialog] + saved], nextId := s.nextId + 2)
      else
        WithRun(s, t, r.(stage := Failing))
    case Finish(t) =>
      var r := s.runs[t];
      var id := if |r.saved| == 2 then r.saved[1].id else 0;
      Published(WithRun(s, t, r.(stage := Done)), r.dialog, End(id))
    case Fail(t) => Published(WithRun(s, t, s.runs[t].(stage := Done)), s.runs[t].dialog, Error)
    case TaskDone(t) =>
      var d := s.runs[t].dialog;
      s.(tasks := s.tasks - {t}, tails := if d in s.tails && s.tails[d] == t then s.tails - {d} else s.tails)
  }

  // ---------------------------------------------------------------- what runs contribute

  /** The contributions of the runs of one dialog, in the order of acceptance. */
  function Gathered<T>(runs: seq<Run>, d: Dialog, part: Run -> seq<T>): seq<T> {
    if runs == [] then []
    else
      var last := runs[|runs| - 1];
      Gathered(runs[..|runs| - 1], d, part) + (if last.dialog == d then part(last) else [])
  }

  function Deltas(emitted: seq<AgentEvent>): seq<Event> {
    if emitted == [] then []
    else
      var last := emitted[|emitted| - 1];
      Deltas(emitted[..|emitted| - 1]) + (if last.AgentDelta? then [Delta(last.content)] else [])
  }

  function Closing(r: Run): seq<Event> {
    if !r.stage.Done? then [] else if |r.saved| == 2 then [End(r.saved[1].id)] else [Error]
  }

  /** What a run has published: START, its deltas, and END or ERROR once it is done. */
  function Block(r: Run): seq<Event> {
    if r.stage.Waiting? then [] else [Start] + Deltas(r.emitted) + Closing(r)
  }

  const SavedOf := (r: Run) => r.saved
  const BlockOf := (r: Run) => Block(r)

  lemma GatheredPush<T>(runs: seq<Run>, r: Run, d: Dialog, part: Run -> seq<T>)
    ensures Gathered(runs + [r], d, part) == Gathered(runs, d, part) + (if r.dialog == d then part(r) else [])
  {
    assert (runs + [r])[..|runs|] == runs;
  }

  lemma {:induction false} GatheredNothing<T>(runs: seq<Run>, d: Dialog, part: Run -> seq<T>)
    requires forall t :: 0 <= t < |runs| && runs[t].dialog == d ==> part(runs[t]) == []
    ensures Gathered(runs, d, part) == []
  {
    if runs != [] {
      GatheredNothing(runs[..|runs| - 1], d, part);
    }
  }

  /** When no later run of the dialog has contributed yet, only the runs before `t` and `t` itself count. */
  lemma {:induction false} GatheredUpTo<T>(runs: seq<Run>, t: nat, d: Dialog, part: Run -> seq<T>)
    requires t < |runs| && runs[t].dialog == d
    requires forall u :: t < u < |runs| && runs[u].dialog == d ==> part(runs[u]) == []
    ensures Gathered(runs, d, part) == Gathered(runs[..t], d, part) + part(runs[t])
  {
    var n := |runs| - 1;
    if t < n {
      GatheredUpTo(runs[..n], t, d, part);
      assert runs[..n][..t] == runs[..t];
    }
  }

  lemma {:induction false} GatheredElsewhere<T>(runs: seq<Run>, t: nat, r: Run, d: Dialog, part: Run -> seq<T>)
    requires t < |runs| && runs[t].dialog == r.dialog && (r.dialog != d || part(r) == part(runs[t]))
    ensures Gathered(runs[t := r], d, part) == Gathered(runs, d, part)
  {
    var n := |runs| - 1;
    if t < n {
      GatheredElsewhere(runs[..n], t, r, d, part);
      assert runs[t := r][..n] == runs[..n][t := r];
    } else {
      assert runs[t := r][..n] == runs[..n];
    }
  }

  /** A run that adds to its contribution adds it at the end. */
  lemma GatheredGrows<T>(runs: seq<Run>, t: nat, r: Run, part: Run -> seq<T>, more: seq<T>)
    requires t < |runs| && runs[t].dialog == r.dialog && part(r) == part(runs[t]) + more
    requires forall u :: t < u < |runs| && runs[u].dialog == r.dialog ==> part(runs[u]) == []
    ensures Gathered(runs[t := r], r.dialog, part) == Gathered(runs, r.dialog, part) + more
  {
    GatheredUpTo(runs, t, r.dialog, part);
    GatheredUpTo(runs[t := r], t, r.dialog, part);
    assert runs[t := r][..t] == runs[..t];
  }
}
