/** What every step of the dialog runs keeps, and what follows for whole runs of the service. */
module DialogProtocol {
  import opened Wrappers
  import opened Messages
  import opened DialogRuns
  import opened Sequences

  datatype Aspect = Linkage | Turns | Progress | Tails | Histories | Streams | Views

  /** `r` waits for the run of its dialog accepted last before it, or all of them were done when it came. */
  ghost predicate Linked(runs: seq<Run>, t: nat)
    requires t < |runs|
  {
    match runs[t].previous
    case None => forall u :: 0 <= u < t && runs[u].dialog == runs[t].dialog ==> runs[u].stage.Done?
    case Some(p) =>
      && p < t && runs[p].dialog == runs[t].dialog
      && forall u :: p < u < t ==> runs[u].dialog != runs[t].dialog
  }

  /** A run is past its wait only when all runs of its dialog accepted before it are done. */
  ghost predicate InTurn(runs: seq<Run>) {
    forall u, t ::
      0 <= u < t < |runs| && runs[u].dialog == runs[t].dialog && !runs[t].stage.Waiting? ==> runs[u].stage.Done?
  }

  /** Nothing is emitted before the agent runs, and what is stored is the question and the agent's answer. */
  ghost predicate Fits(r: Run) {
    && AgentStream(r.emitted)
    && (r.stage.Waiting? || r.stage.Started? ==> r.emitted == [])
    && (r.saved == [] || (|r.saved| == 2 && Responded(r) && r.saved == Pair(r.saved[0].id, r.request, Answer(r))))
    && (r.stage.Persisted? ==> r.saved != [])
    && (r.saved != [] ==> r.stage.Persisted? || r.stage.Done?)
  }

  ghost predicate TailsFit(s: State) {
    && (forall d :: d in s.tails ==> s.tails[d] < |s.runs| && s.runs[s.tails[d]].dialog == d)
    && (forall d, u :: d in s.tails && s.tails[d] < u < |s.runs| ==> s.runs[u].dialog != d)
    && (forall t :: 0 <= t < |s.runs| && s.runs[t].dialog !in s.tails ==> s.runs[t].stage.Done?)
    && (forall t :: 0 <= t < |s.runs| && t !in s.tasks ==> s.runs[t].stage.Done?)
  }

  /** The agent of the run has received the stored pairs of the earlier accepted runs of its dialog. */
  ghost predicate HasSeen(runs: seq<Run>, t: nat)
    requires t < |runs|
  {
    runs[t].history == Plain(Gathered(runs[..t], runs[t].dialog, SavedOf))
  }

  ghost predicate Holds(s: State, aspect: Aspect) {
    match aspect
    case Linkage => forall t :: 0 <= t < |s.runs| ==> s.runs[t].dialog in s.known && Linked(s.runs, t)
    case Turns => InTurn(s.runs)
    case Progress => forall t :: 0 <= t < |s.runs| ==> Fits(s.runs[t])
    case Tails => TailsFit(s)
    case Histories => forall d :: d in s.dialogs ==> d in s.known && s.dialogs[d] == Gathered(s.runs, d, SavedOf)
    case Streams => forall d :: Stream(s, d) == Gathered(s.runs, d, BlockOf)
    case Views => forall t ::
      0 <= t < |s.runs| && (s.runs[t].stage.Running? || s.runs[t].saved != []) ==> HasSeen(s.runs, t)
  }

  ghost predicate Sound(s: State) {
    forall aspect :: Holds(s, aspect)
  }

  lemma SoundMeans(s: State)
    requires Sound(s)
    ensures Holds(s, Linkage) && Holds(s, Turns) && Holds(s, Progress) && Holds(s, Tails)
    ensures Holds(s, Histories) && Holds(s, Streams) && Holds(s, Views)
  {
  }

  const EMPTY := State(true, [], map[], {}, {}, map[], 1, map[])

  lemma EmptyIsSound()
    ensures Sound(EMPTY)
  {
  }

  // ---------------------------------------------------------------- steps of one run

  predicate Moves(step: Step) {
    step.Begin? || step.Load? || step.Emit? || step.Break? || step.Persist? || step.Finish? || step.Fail?
  }

  predicate SameRequest(a: Run, b: Run) {
    a.dialog == b.dialog && a.request == b.request && a.previous == b.previous
  }

  /** A step of run `t` leaves its identity and all other runs alone, and is not taken by a run that is done. */
  lemma MovesOneRun(s: State, step: Step)
    requires Moves(step) && CanStep(s, step)
    ensures step.t < |s.runs| && !s.runs[step.t].stage.Done? && |After(s, step).runs| == |s.runs|
    ensures After(s, step).runs == s.runs[step.t := After(s, step).runs[step.t]]
    ensures SameRequest(After(s, step).runs[step.t], s.runs[step.t])
    ensures After(s, step).tails == s.tails && After(s, step).tasks == s.tasks && After(s, step).known == s.known
    ensures !step.Begin? ==> !s.runs[step.t].stage.Waiting?
    ensures step.Begin? ==> PredecessorDone(s, s.runs[step.t])
  {
  }

  /** The same runs stand in the same places, and those that were done are done. */
  ghost predicate SameRuns(s: State, v: State) {
    && |v.runs| == |s.runs|
    && forall u :: 0 <= u < |s.runs| ==>
         SameRequest(v.runs[u], s.runs[u]) && (s.runs[u].stage.Done? ==> v.runs[u].stage.Done?)
  }

  lemma MovesKeepRuns(s: State, step: Step)
    requires Moves(step) && CanStep(s, step)
    ensures SameRuns(s, After(s, step))
  {
    MovesOneRun(s, step);
  }

  lemma MoveKeepsLinks(s: State, step: Step)
    requires Holds(s, Linkage) && Moves(step) && CanStep(s, step)
    ensures Holds(After(s, step), Linkage)
  {
    var v := After(s, step);
    assert v.known == s.known;
    MovesKeepRuns(s, step);
    LinksStay(s, v);
  }

  lemma LinksStay(s: State, v: State)
    requires Holds(s, Linkage) && v.known == s.known && SameRuns(s, v)
    ensures Holds(v, Linkage)
  {
    forall u | 0 <= u < |v.runs| ensures v.runs[u].dialog in v.known && Linked(v.runs, u) {
      LinkStays(s, v, u);
    }
  }

  lemma LinkStays(s: State, v: State, u: nat)
    requires u < |s.runs| && Linked(s.runs, u) && SameRuns(s, v)
    ensures Linked(v.runs, u)
  {
    assert SameRequest(v.runs[u], s.runs[u]);
  }

  lemma PredecessorsDone(s: State, t: nat, u: nat)
    requires Holds(s, Linkage) && Holds(s, Turns) && u < t < |s.runs| && s.runs[u].dialog == s.runs[t].dialog
    requires PredecessorDone(s, s.runs[t])
    ensures s.runs[u].stage.Done?
  {
    assert Linked(s.runs, t);
  }

  lemma MoveKeepsTurns(s: State, step: Step)
    requires Holds(s, Linkage) && Holds(s, Turns) && Moves(step) && CanStep(s, step)
    ensures Holds(After(s, step), Turns)
  {
    MovesOneRun(s, step);
    var v := After(s, step);
    forall u, t | 0 <= u < t < |v.runs| && v.runs[u].dialog == v.runs[t].dialog && !v.runs[t].stage.Waiting?
      ensures v.runs[u].stage.Done?
    {
      if t == step.t && step.Begin? {
        PredecessorsDone(s, t, u);
      }
    }
  }

  /** The tails depend on the dialogs of the runs and on which of them are done. */
  lemma MoveKeepsTails(s: State, step: Step)
    requires Holds(s, Tails) && Moves(step) && CanStep(s, step)
    ensures Holds(After(s, step), Tails)
  {
    var v := After(s, step);
    assert v.tails == s.tails && v.tasks == s.tasks;
    MovesKeepRuns(s, step);
    TailsStay(s, v);
  }

  lemma TailsStay(s: State, v: State)
    requires TailsFit(s) && v.tails == s.tails && v.tasks == s.tasks && SameRuns(s, v)
    ensures TailsFit(v)
  {
    assert forall u :: 0 <= u < |s.runs| ==> SameRequest(v.runs[u], s.runs[u]);
  }

  lemma RunStillFits(s: State, step: Step)
    requires Moves(step) && CanStep(s, step) && Fits(s.runs[step.t])
    ensures Fits(After(s, step).runs[step.t])
  {
    var r, w := s.runs[step.t], After(s, step).runs[step.t];
    if step.Emit? {
      assert w == r.(emitted := r.emitted + [step.event]);
    } else if step.Persist? && r.dialog in s.dialogs {
      assert w.saved == Pair(s.nextId, r.request, Answer(r));
    } else {
      assert w.emitted == r.emitted && w.saved == r.saved;
    }
  }

  lemma MoveKeepsProgress(s: State, step: Step)
    requires Holds(s, Progress) && Moves(step) && CanStep(s, step)
    ensures Holds(After(s, step), Progress)
  {
    MovesOneRun(s, step);
    RunStillFits(s, step);
    var v := After(s, step);
    forall u | 0 <= u < |v.runs| ensures Fits(v.runs[u]) {
      assert Fits(s.runs[u]);
    }
  }

  /** Runs of the dialog accepted later have not contributed anything. */
  lemma LaterRunsWait(s: State, t: nat, u: nat)
    requires Holds(s, Turns) && Holds(s, Progress) && t < u < |s.runs| && s.runs[u].dialog == s.runs[t].dialog
      && !s.runs[t].stage.Done?
    ensures s.runs[u].stage.Waiting? && SavedOf(s.runs[u]) == [] && BlockOf(s.runs[u]) == []
  {
    assert Fits(s.runs[u]);
  }

  /** What the step of a run adds to the stored history of its dialog. */
  function Stored(s: State, step: Step): seq<StoredMessage>
    requires Moves(step) && step.t < |s.runs| && (step.Persist? ==> Responded(s.runs[step.t]))
  {
    var r := s.runs[step.t];
    if step.Persist? && r.dialog in s.dialogs then Pair(s.nextId, r.request, Answer(r)) else []
  }

  /** What the step of a run publishes. */
  function Said(s: State, step: Step): seq<Event>
    requires Moves(step) && step.t < |s.runs|
  {
    var r := s.runs[step.t];
    match step
    case Begin(_) => [Start]
    case Emit(_, AgentDelta(text)) => [Delta(text)]
    case Finish(_) => [End(if |r.saved| == 2 then r.saved[1].id else 0)]
    case Fail(_) => [Error]
    case _ => []
  }

  lemma SavedGrows(s: State, step: Step)
    requires Moves(step) && CanStep(s, step) && Fits(s.runs[step.t])
    ensures SavedOf(After(s, step).runs[step.t]) == SavedOf(s.runs[step.t]) + Stored(s, step)
  {
    if step.Persist? {
      assert s.runs[step.t].saved == [];
    } else {
      assert After(s, step).runs[step.t].saved == s.runs[step.t].saved;
    }
  }

  lemma StoreGrows(s: State, step: Step, d: Dialog)
    requires Moves(step) && CanStep(s, step)
    ensures d in After(s, step).dialogs <==> d in s.dialogs
    ensures d in s.dialogs ==>
      After(s, step).dialogs[d] == s.dialogs[d] + (if d == s.runs[step.t].dialog then Stored(s, step) else [])
  {
    if !step.Persist? {
      assert After(s, step).dialogs == s.dialogs && Stored(s, step) == [];
    }
  }

  lemma DeltasPush(emitted: seq<AgentEvent>, e: AgentEvent)
    ensures Deltas(emitted + [e]) == Deltas(emitted) + (if e.AgentDelta? then [Delta(e.content)] else [])
  {
    assert (emitted + [e])[..|emitted|] == emitted;
  }

  lemma EmitGrows(r: Run, e: AgentEvent)
    requires r.stage.Running?
    ensures Block(r.(emitted := r.emitted + [e])) == Block(r) + (if e.AgentDelta? then [Delta(e.content)] else [])
  {
    DeltasPush(r.emitted, e);
  }

  lemma ClosingGrows(r: Run, w: Run)
    requires !r.stage.Waiting? && !r.stage.Done? && !w.stage.Waiting? && w.emitted == r.emitted
    ensures Block(w) == Block(r) + Closing(w)
  {
  }

  lemma BlockGrows(s: State, step: Step)
    requires Moves(step) && CanStep(s, step) && Fits(s.runs[step.t])
    ensures BlockOf(After(s, step).runs[step.t]) == BlockOf(s.runs[step.t]) + Said(s, step)
  {
    if step.Emit? {
      EmitGrows(s.runs[step.t], step.event);
    } else if !step.Begin? {
      ClosingGrows(s.runs[step.t], After(s, step).runs[step.t]);
    }
  }

  lemma StreamGrows(s: State, step: Step)
    requires Moves(step) && CanStep(s, step)
    ensures forall d ::
      Stream(After(s, step), d) == Stream(s, d) + (if d == s.runs[step.t].dialog then Said(s, step) else [])
  {
  }

  lemma MoveKeepsHistories(s: State, step: Step)
    requires Holds(s, Turns) && Holds(s, Progress) && Holds(s, Histories) && Moves(step) && CanStep(s, step)
    ensures Holds(After(s, step), Histories)
  {
    MovesOneRun(s, step);
    var v, t := After(s, step), step.t;
    assert Fits(s.runs[t]);
    SavedGrows(s, step);
    forall d | d in v.dialogs ensures d in v.known && v.dialogs[d] == Gathered(v.runs, d, SavedOf) {
      StoreGrows(s, step, d);
      if d == s.runs[t].dialog {
        forall u | t < u < |s.runs| && s.runs[u].dialog == d ensures SavedOf(s.runs[u]) == [] {
          LaterRunsWait(s, t, u);
        }
        GatheredGrows(s.runs, t, v.runs[t], SavedOf, Stored(s, step));
      } else {
        GatheredElsewhere(s.runs, t, v.runs[t], d, SavedOf);
      }
    }
  }

  lemma MoveKeepsStreams(s: State, step: Step)
    requires Holds(s, Turns) && Holds(s, Progress) && Holds(s, Streams) && Moves(step) && CanStep(s, step)
    ensures Holds(After(s, step), Streams)
  {
    MovesOneRun(s, step);
    var v, t := After(s, step), step.t;
    assert Fits(s.runs[t]);
    BlockGrows(s, step);
    StreamGrows(s, step);
    forall d ensures Stream(v, d) == Gathered(v.runs, d, BlockOf) {
      if d == s.runs[t].dialog {
        forall u | t < u < |s.runs| && s.runs[u].dialog == d ensures BlockOf(s.runs[u]) == [] {
          LaterRunsWait(s, t, u);
        }
        GatheredGrows(s.runs, t, v.runs[t], BlockOf, Said(s, step));
      } else {
        GatheredElsewhere(s.runs, t, v.runs[t], d, BlockOf);
      }
    }
  }

  /** A run past its wait keeps seeing the same earlier pairs. */
  lemma SeenBefore(s: State, step: Step, u: nat)
    requires Holds(s, Turns) && Holds(s, Progress) && Moves(step) && CanStep(s, step)
    requires u < |s.runs| && u != step.t && !s.runs[u].stage.Waiting?
    ensures Gathered(After(s, step).runs[..u], s.runs[u].dialog, SavedOf) ==
      Gathered(s.runs[..u], s.runs[u].dialog, SavedOf)
  {
    MovesOneRun(s, step);
    var v, t := After(s, step), step.t;
    if t < u {
      assert v.runs[..u] == s.runs[..u][t := v.runs[t]];
      assert s.runs[t].dialog != s.runs[u].dialog;
      GatheredElsewhere(s.runs[..u], t, v.runs[t], s.runs[u].dialog, SavedOf);
    } else {
      assert v.runs[..u] == s.runs[..u];
    }
  }

  /** Loading gives the agent exactly the pairs of the earlier runs. */
  lemma LoadSees(s: State, t: nat)
    requires Holds(s, Turns) && Holds(s, Progress) && Holds(s, Histories) && CanStep(s, Load(t))
      && s.runs[t].dialog in s.dialogs
    ensures s.dialogs[s.runs[t].dialog] == Gathered(s.runs[..t], s.runs[t].dialog, SavedOf)
  {
    var d := s.runs[t].dialog;
    forall u | t < u < |s.runs| && s.runs[u].dialog == d ensures SavedOf(s.runs[u]) == [] {
      LaterRunsWait(s, t, u);
    }
    assert Fits(s.runs[t]);
    GatheredUpTo(s.runs, t, d, SavedOf);
  }

  lemma MoveKeepsViews(s: State, step: Step)
    requires Holds(s, Turns) && Holds(s, Progress) && Holds(s, Histories) && Holds(s, Views) && Moves(step)
      && CanStep(s, step)
    ensures Holds(After(s, step), Views)
  {
    MovesOneRun(s, step);
    var v, t := After(s, step), step.t;
    forall u | 0 <= u < |v.runs| && (v.runs[u].stage.Running? || v.runs[u].saved != []) ensures HasSeen(v.runs, u) {
      assert Fits(s.runs[u]);
      if u != t {
        assert HasSeen(s.runs, u);
        SeenBefore(s, step, u);
      } else {
        assert v.runs[..t] == s.runs[..t];
        if step.Load? {
          LoadSees(s, t);
        } else {
          assert HasSeen(s.runs, t);
        }
      }
    }
  }

  lemma MoveKeeps(s: State, step: Step, aspect: Aspect)
    requires Sound(s) && Moves(step) && CanStep(s, step)
    ensures Holds(After(s, step), aspect)
  {
    SoundMeans(s);
    match aspect
    case Linkage => MoveKeepsLinks(s, step);
    case Turns => MoveKeepsTurns(s, step);
    case Progress => MoveKeepsProgress(s, step);
    case Tails => MoveKeepsTails(s, step);
    case Histories => MoveKeepsHistories(s, step);
    case Streams => MoveKeepsStreams(s, step);
    case Views => MoveKeepsViews(s, step);
  }

  // ---------------------------------------------------------------- the other steps

  lemma SubmitKeepsRuns(s: State, step: Step)
    requires Sound(s) && step.Submit? && CanStep(s, step)
    ensures Holds(After(s, step), Linkage) && Holds(After(s, step), Turns) && Holds(After(s, step), Progress)
  {
    assert Holds(s, Linkage) && Holds(s, Turns) && Holds(s, Progress) && Holds(s, Tails);
    var v := After(s, step);
    forall t | 0 <= t < |v.runs| ensures v.runs[t].dialog in v.known && Linked(v.runs, t) {
      if t < |s.runs| {
        assert Linked(s.runs, t);
      }
    }
  }

  lemma SubmitKeepsStores(s: State, step: Step)
    requires Sound(s) && step.Submit? && CanStep(s, step)
    ensures Holds(After(s, step), Histories) && Holds(After(s, step), Streams) && Holds(After(s, step), Views)
  {
    assert Holds(s, Histories) && Holds(s, Streams) && Holds(s, Views);
    var v := After(s, step);
    var r := v.runs[|s.runs|];
    forall d ensures Gathered(v.runs, d, SavedOf) == Gathered(s.runs, d, SavedOf) {
      GatheredPush(s.runs, r, d, SavedOf);
    }
    forall d ensures Gathered(v.runs, d, BlockOf) == Gathered(s.runs, d, BlockOf) {
      GatheredPush(s.runs, r, d, BlockOf);
    }
    forall t | 0 <= t < |v.runs| && (v.runs[t].stage.Running? || v.runs[t].saved != []) ensures HasSeen(v.runs, t) {
      assert v.runs[..t] == s.runs[..t] && HasSeen(s.runs, t);
    }
  }

  lemma SubmitKeepsTails(s: State, step: Step)
    requires Holds(s, Tails) && step.Submit? && CanStep(s, step)
    ensures Holds(After(s, step), Tails)
  {
    var v := After(s, step);
    TailGrows(s, v, v.runs[|s.runs|]);
  }

  lemma TailGrows(s: State, v: State, r: Run)
    requires TailsFit(s) && v.runs == s.runs + [r]
    requires v.tails == s.tails[r.dialog := |s.runs|] && v.tasks == s.tasks + {|s.runs|}
    ensures TailsFit(v)
  {
    var n := |s.runs|;
    forall d | d in v.tails ensures v.tails[d] <= n && v.runs[v.tails[d]].dialog == d {
      if d != r.dialog {
        assert v.tails[d] == s.tails[d];
      }
    }
    forall d, u | d in v.tails && v.tails[d] < u <= n ensures v.runs[u].dialog != d {
      if d != r.dialog && u < n {
        assert v.tails[d] == s.tails[d] && v.runs[u] == s.runs[u];
      }
    }
    forall t | 0 <= t <= n && (v.runs[t].dialog !in v.tails || t !in v.tasks) ensures v.runs[t].stage.Done? {
      assert t < n && v.runs[t] == s.runs[t];
    }
  }

  /** Dropping a tail loses nothing: by then every run of the dialog is done. */
  lemma TaskDoneKeepsTails(s: State, step: Step)
    requires Holds(s, Tails) && Holds(s, Turns) && step.TaskDone? && CanStep(s, step)
    ensures Holds(After(s, step), Tails)
  {
    var v, d := After(s, step), s.runs[step.t].dialog;
    if d in s.tails && s.tails[d] == step.t {
      forall t | 0 <= t < |s.runs| && s.runs[t].dialog == d ensures s.runs[t].stage.Done? {
      }
    }
  }

  lemma CreateKeepsStores(s: State, step: Step)
    requires Sound(s) && step.Create? && CanStep(s, step)
    ensures Holds(After(s, step), Histories) && Holds(After(s, step), Linkage)
  {
    assert Holds(s, Histories) && Holds(s, Linkage);
    GatheredNothing(s.runs, step.d, SavedOf);
    var v := After(s, step);
    forall t | 0 <= t < |v.runs| ensures v.runs[t].dialog in v.known && Linked(v.runs, t) {
      assert Linked(s.runs, t);
    }
  }

  lemma OtherKeeps(s: State, step: Step, aspect: Aspect)
    requires Sound(s) && CanStep(s, step) && !Moves(step) && !step.Submit?
    ensures Holds(After(s, step), aspect)
  {
    SoundMeans(s);
    match step
    case TaskDone(_) => TaskDoneKeepsTails(s, step);
    case Create(_) => CreateKeepsStores(s, step);
    case Delete(_) => {
    }
  }

  lemma SubmitKeeps(s: State, step: Step, aspect: Aspect)
    requires Sound(s) && CanStep(s, step) && step.Submit?
    ensures Holds(After(s, step), aspect)
  {
    match aspect
    case Tails => {
      SoundMeans(s);
      SubmitKeepsTails(s, step);
    }
    case Linkage => SubmitKeepsRuns(s, step);
    case Turns => SubmitKeepsRuns(s, step);
    case Progress => SubmitKeepsRuns(s, step);
    case _ => SubmitKeepsStores(s, step);
  }

  /** Every step, in whatever interleaving, keeps the invariant. */
  lemma StepKeepsSound(s: State, step: Step)
    requires Sound(s) && CanStep(s, step)
    ensures Sound(After(s, step))
  {
    forall aspect ensures Holds(After(s, step), aspect) {
      if Moves(step) {
        MoveKeeps(s, step, aspect);
      } else if step.Submit? {
        SubmitKeeps(s, step, aspect);
      } else {
        OtherKeeps(s, step, aspect);
      }
    }
  }

  // ---------------------------------------------------------------- whole runs of the service

  ghost predicate Runs(s: State, steps: seq<Step>)
    decreases |steps|
  {
    steps == [] || (CanStep(s, steps[0]) && Runs(After(s, steps[0]), steps[1..]))
  }

  ghost function Finally(s: State, steps: seq<Step>): State
    requires Runs(s, steps)
    decreases |steps|
  {
    if steps == [] then s else Finally(After(s, steps[0]), steps[1..])
  }

  lemma {:induction false} RunKeepsSound(s: State, steps: seq<Step>)
    requires Sound(s) && Runs(s, steps)
    ensures Sound(Finally(s, steps))
    decreases |steps|
  {
    if steps != [] {
      StepKeepsSound(s, steps[0]);
      RunKeepsSound(After(s, steps[0]), steps[1..]);
    }
  }

  predicate Active(r: Run) {
    !r.stage.Waiting? && !r.stage.Done?
  }

  /** In any interleaving at most one run of a dialog is past its wait and not yet done. */
  lemma OneRunAtATime(steps: seq<Step>, t: nat, u: nat)
    requires Runs(EMPTY, steps)
    requires t < |Finally(EMPTY, steps).runs| && u < |Finally(EMPTY, steps).runs|
    requires Finally(EMPTY, steps).runs[t].dialog == Finally(EMPTY, steps).runs[u].dialog
    requires Active(Finally(EMPTY, steps).runs[t]) && Active(Finally(EMPTY, steps).runs[u])
    ensures t == u
  {
    EmptyIsSound();
    RunKeepsSound(EMPTY, steps);
    assert Holds(Finally(EMPTY, steps), Turns);
  }

  /** The agent of a running run was given the stored pairs of exactly the earlier accepted runs, in that order. */
  lemma AgentSeesEarlierPairs(steps: seq<Step>, t: nat)
    requires Runs(EMPTY, steps)
    requires t < |Finally(EMPTY, steps).runs| && Finally(EMPTY, steps).runs[t].stage.Running?
    ensures var runs := Finally(EMPTY, steps).runs;
      runs[t].history == Plain(Gathered(runs[..t], runs[t].dialog, SavedOf))
  {
    EmptyIsSound();
    RunKeepsSound(EMPTY, steps);
    assert Holds(Finally(EMPTY, steps), Views);
    assert HasSeen(Finally(EMPTY, steps).runs, t);
  }

  /**
   * The stream of a dialog is what its runs published, one run after another in the order of acceptance: so every
   * stored answer of a finished run was announced by END under its own id, and every failed run by ERROR.
   */
  lemma StreamIsRunByRun(steps: seq<Step>, d: Dialog)
    requires Runs(EMPTY, steps)
    ensures Stream(Finally(EMPTY, steps), d) == Gathered(Finally(EMPTY, steps).runs, d, BlockOf)
  {
    EmptyIsSound();
    RunKeepsSound(EMPTY, steps);
    assert Holds(Finally(EMPTY, steps), Streams);
  }

  /** A dialog holds the pairs its runs stored, in the order of acceptance, and nothing else. */
  lemma DialogHoldsPairs(steps: seq<Step>, d: Dialog)
    requires Runs(EMPTY, steps) && d in Finally(EMPTY, steps).dialogs
    ensures Finally(EMPTY, steps).dialogs[d] == Gathered(Finally(EMPTY, steps).runs, d, SavedOf)
  {
    EmptyIsSound();
    RunKeepsSound(EMPTY, steps);
    assert Holds(Finally(EMPTY, steps), Histories);
  }

  /** What a run stored is its request and exactly the text its deltas spelled. */
  lemma StoredIsSpoken(r: Run)
    requires Fits(r) && r.saved != []
    ensures r.saved[0] == StoredMessage(r.saved[0].id, User, r.request)
    ensures r.saved[1] == StoredMessage(r.saved[0].id + 1, Assistant, Spoken(r.emitted))
  {
    var n := |r.emitted| - 1;
    assert r.emitted[n].AgentResponse?;
  }

  // ---------------------------------------------------------------- reading a stream

  /** A reader of the stream: whether a message is open, its text so far, and whether all was in order. */
  datatype Reader = Reader(started: bool, text: Text, ok: bool) {
    function Next(e: Event): Reader {
      match e
      case Start => Reader(true, "", ok && !started)
      case Delta(more) => Reader(started, text + more, ok && started)
      case End(_) => Reader(false, text, ok && started)
      case Error => Reader(false, text, ok && started)
    }
  }

  function Read(events: seq<Event>): Reader {
    if events == [] then Reader(false, "", true) else Read(events[..|events| - 1]).Next(events[|events| - 1])
  }

  lemma ReadPush(events: seq<Event>, e: Event)
    ensures Read(events + [e]) == Read(events).Next(e)
  {
    assert (events + [e])[..|events|] == events;
  }

  lemma ReadMore(before: seq<Event>, some: seq<Event>, e: Event)
    ensures Read(before + (some + [e])) == Read(before + some).Next(e)
  {
    assert before + (some + [e]) == (before + some) + [e];
    ReadPush(before + some, e);
  }

  lemma {:induction false} ReadDeltas(before: seq<Event>, emitted: seq<AgentEvent>)
    requires Read(before).started
    ensures Read(before + Deltas(emitted)) == Reader(true, Read(before).text + Spoken(emitted), Read(before).ok)
  {
    if emitted == [] {
      assert before + Deltas(emitted) == before;
    } else {
      var n := |emitted| - 1;
      ReadDeltas(before, emitted[..n]);
      if emitted[n].AgentDelta? {
        ReadOneDelta(before, emitted, n);
      } else {
        assert Deltas(emitted) == Deltas(emitted[..n]);
      }
    }
  }

  lemma ReadOneDelta(before: seq<Event>, emitted: seq<AgentEvent>, n: nat)
    requires |emitted| == n + 1 && emitted[n].AgentDelta?
    requires Read(before).started
    requires Read(before + Deltas(emitted[..n])) ==
             Reader(true, Read(before).text + Spoken(emitted[..n]), Read(before).ok)
    ensures Read(before + Deltas(emitted)) == Reader(true, Read(before).text + Spoken(emitted), Read(before).ok)
  {
    var text := Read(before).text;
    var e := Delta(emitted[n].content);
    calc {
      Read(before + Deltas(emitted));
    ==
      Read(before + (Deltas(emitted[..n]) + [e]));
    ==  { ReadMore(before, Deltas(emitted[..n]), e); }
      Reader(true, text + Spoken(emitted[..n]) + emitted[n].content, Read(before).ok);
    ==  { Associates(text, Spoken(emitted[..n]), emitted[n].content); }
      Reader(true, text + Spoken(emitted), Read(before).ok);
    }
  }

  lemma {:induction false} DeltasOnly(emitted: seq<AgentEvent>)
    ensures forall i :: 0 <= i < |Deltas(emitted)| ==> Deltas(emitted)[i].Delta?
  {
    if emitted != [] {
      DeltasOnly(emitted[..|emitted| - 1]);
    }
  }

  lemma ReadSpoken(before: seq<Event>, emitted: seq<AgentEvent>)
    requires !Read(before).started && Read(before).ok
    ensures Read(before + [Start] + Deltas(emitted)) == Reader(true, Spoken(emitted), true)
  {
    ReadPush(before, Start);
    ReadDeltas(before + [Start], emitted);
  }

  lemma BlockSplits(before: seq<Event>, r: Run)
    requires !r.stage.Waiting?
    ensures before + Block(r) == before + [Start] + Deltas(r.emitted) + Closing(r)
  {
  }

  lemma ReadClosing(spoken: seq<Event>, r: Run)
    requires Read(spoken).started
    ensures Read(spoken + Closing(r)) == Read(spoken).(started := !r.stage.Done?)
  {
    if r.stage.Done? {
      ReadPush(spoken, Closing(r)[0]);
    } else {
      assert spoken + Closing(r) == spoken;
    }
  }

  /** A block read after closed blocks is in order, spells the text of its run, and is closed once the run is done. */
  lemma ReadBlock(before: seq<Event>, r: Run)
    requires !Read(before).started && Read(before).ok && !r.stage.Waiting?
    ensures Read(before + Block(r)) == Reader(!r.stage.Done?, Spoken(r.emitted), true)
  {
    var spoken := before + [Start] + Deltas(r.emitted);
    BlockSplits(before, r);
    ReadSpoken(before, r.emitted);
    ReadClosing(spoken, r);
  }

  /** The stream of a dialog is in order, and open only while one of its runs is active. */
  lemma {:induction false} ReadRuns(runs: seq<Run>, d: Dialog)
    requires InTurn(runs)
    ensures Read(Gathered(runs, d, BlockOf)).ok
    ensures Read(Gathered(runs, d, BlockOf)).started ==>
      exists t :: 0 <= t < |runs| && runs[t].dialog == d && Active(runs[t])
  {
    if runs != [] {
      var n := |runs| - 1;
      ReadRuns(runs[..n], d);
      var before := Gathered(runs[..n], d, BlockOf);
      if runs[n].dialog == d && !runs[n].stage.Waiting? {
        ReadBlock(before, runs[n]);
      } else {
        assert Gathered(runs, d, BlockOf) == before;
      }
    }
  }

  /** Message `id` of the dialog is the stored answer of one of its runs, and reads `text`. */
  ghost predicate Answered(runs: seq<Run>, d: Dialog, id: nat, text: Text) {
    exists t :: 0 <= t < |runs| && runs[t].dialog == d && |runs[t].saved| == 2
      && runs[t].saved[1] == StoredMessage(id, Assistant, text)
  }

  lemma {:induction false} EndOfRuns(runs: seq<Run>, d: Dialog, j: nat, id: nat)
    requires InTurn(runs) && forall t :: 0 <= t < |runs| ==> Fits(runs[t])
    requires j < |Gathered(runs, d, BlockOf)| && Gathered(runs, d, BlockOf)[j] == End(id)
    ensures Answered(runs, d, id, Read(Gathered(runs, d, BlockOf)[..j]).text)
  {
    var n := |runs| - 1;
    var before, all := Gathered(runs[..n], d, BlockOf), Gathered(runs, d, BlockOf);
    if j < |before| {
      EndOfRuns(runs[..n], d, j, id);
      assert all[..j] == before[..j];
      var t :| 0 <= t < |runs[..n]| && runs[..n][t].dialog == d && |runs[..n][t].saved| == 2
        && runs[..n][t].saved[1] == StoredMessage(id, Assistant, Read(before[..j]).text);
      assert runs[t] == runs[..n][t];
    } else {
      EndOfBlock(before, runs[n], j - |before|, id, all, j);
      ReadRuns(runs[..n], d);
      ReadSpoken(before, runs[n].emitted);
      StoredIsSpoken(runs[n]);
    }
  }

  lemma EndOfBlock(before: seq<Event>, r: Run, i: nat, id: nat, all: seq<Event>, j: nat)
    requires Fits(r) && i < |Block(r)| && Block(r)[i] == End(id) && all == before + Block(r) && j == |before| + i
    ensures r.stage.Done? && |r.saved| == 2 && r.saved[1].id == id && all[..j] == before + [Start] + Deltas(r.emitted)
  {
    DeltasOnly(r.emitted);
    assert i == |Block(r)| - 1;
  }

  /** In every reachable state each dialog's stream is blocks START DELTA* (END or ERROR), at most the last one open. */
  lemma StreamIsInOrder(steps: seq<Step>, d: Dialog)
    requires Runs(EMPTY, steps)
    ensures Read(Stream(Finally(EMPTY, steps), d)).ok
  {
    EmptyIsSound();
    RunKeepsSound(EMPTY, steps);
    var s := Finally(EMPTY, steps);
    assert Holds(s, Turns) && Holds(s, Streams);
    ReadRuns(s.runs, d);
  }

  /** The deltas before an END spell exactly the answer stored under the id the END carries. */
  lemma EndCarriesTheText(steps: seq<Step>, d: Dialog, j: nat, id: nat)
    requires Runs(EMPTY, steps)
    requires j < |Stream(Finally(EMPTY, steps), d)| && Stream(Finally(EMPTY, steps), d)[j] == End(id)
    ensures Answered(Finally(EMPTY, steps).runs, d, id, Read(Stream(Finally(EMPTY, steps), d)[..j]).text)
  {
    EmptyIsSound();
    RunKeepsSound(EMPTY, steps);
    var s := Finally(EMPTY, steps);
    assert Holds(s, Turns) && Holds(s, Streams) && Holds(s, Progress);
    EndOfRuns(s.runs, d, j, id);
  }

  // ---------------------------------------------------------------- what a subscriber heard

  /** The deltas among received events, joined. */
  function Heard(events: seq<Event>): Text {
    if events == [] then ""
    else
      var before, last := Heard(events[..|events| - 1]), events[|events| - 1];
      if last.Delta? then before + last.text else before
  }

  lemma {:induction false} HeardIsRead(before: seq<Event>, rest: seq<Event>)
    requires forall i :: 0 <= i < |rest| ==> !rest[i].Start?
    ensures Read(before + [Start] + rest).text == Heard(rest)
  {
    if rest == [] {
      assert before + [Start] + rest == before + [Start];
      ReadPush(before, Start);
    } else {
      var n := |rest| - 1;
      HeardIsRead(before, rest[..n]);
      assert before + [Start] + rest == (before + [Start] + rest[..n]) + [rest[n]];
      ReadPush(before + [Start] + rest[..n], rest[n]);
    }
  }

  /** A subscriber that received a message from its START to its END has heard exactly the stored answer. */
  lemma SubscriberHeardTheAnswer(steps: seq<Step>, d: Dialog, i: nat, j: nat, id: nat)
    requires Runs(EMPTY, steps)
    requires i < j < |Stream(Finally(EMPTY, steps), d)|
    requires Stream(Finally(EMPTY, steps), d)[i] == Start && Stream(Finally(EMPTY, steps), d)[j] == End(id)
    requires forall k :: i < k < j ==> !Stream(Finally(EMPTY, steps), d)[k].Start?
    ensures Answered(Finally(EMPTY, steps).runs, d, id, Heard(Stream(Finally(EMPTY, steps), d)[i + 1..j]))
  {
    var all := Stream(Finally(EMPTY, steps), d);
    EndCarriesTheText(steps, d, j, id);
    HeardIsRead(all[..i], all[i + 1..j]);
    assert all[..j] == all[..i] + [Start] + all[i + 1..j];
  }
}
