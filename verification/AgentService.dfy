/**
 * `AgentService` (`application/agent_service.py`) over the history store and the broker: each method is
 * what runs between two awaits, and each is one step of the protocol.
 */
module AgentService {
  import opened Wrappers
  import opened Clocks
  import opened Messages
  import opened DialogRuns
  import opened DialogProtocol
  import opened EventBroker
  import opened History
  import D = Dialogs

  datatype ServiceError = Unavailable | Missing

  function MessagesIn(dialogs: map<Dialog, D.Dialog>): map<Dialog, seq<StoredMessage>> {
    map d | d in dialogs :: dialogs[d].messages
  }

  class AgentService {
    const history: HistoryStore
    const broker: Broker
    var accepting: bool
    var tails: map<Dialog, nat>
    var tasks: set<nat>
    var runs: seq<Run>            // the tasks made so far; a run is the local state of its task
    ghost var known: set<Dialog>

    ghost function State(): State
      reads this, history, broker
    {
      DialogRuns.State.State(accepting, runs, tails, tasks, known, MessagesIn(history.dialogs), history.nextMessage,
        broker.streams)
    }

    ghost predicate Valid()
      reads this, history, broker, broker.everOpened
    {
      Sound(State()) && history.Valid() && broker.Valid() && !broker.closed
    }

    constructor (clock: Clock, queueSize: nat)
      requires queueSize > 0
      ensures Valid() && State() == EMPTY && fresh(history) && fresh(broker) && history.clock == clock
        && broker.served == {}
    {
      history := new HistoryStore(clock);
      broker := new Broker(queueSize);
      accepting, tails, tasks, runs, known := true, map[], {}, [], {};
      new;
      EmptyIsSound();
      assert State() == EMPTY;
    }

    /** `d` is a newly drawn UUID. */
    method StartDialog(user: nat, d: Dialog) returns (r: Result<(), ServiceError>)
      requires Valid() && d !in known
      modifies this`known, history, history.clock
      ensures Valid() && (r.Ok? <==> accepting)
      ensures State() == if r.Ok? then After(old(State()), Create(d)) else old(State())
    {
      if !accepting {
        return Err(Unavailable);
      }
      UnknownIsNotStored(State(), d);
      OpenDialog(user, d);
      r := Ok(());
    }

    method OpenDialog(user: nat, d: Dialog)
      requires Valid() && CanStep(State(), Create(d)) && d !in history.dialogs
      modifies this`known, history, history.clock
      ensures Valid() && State() == After(old(State()), Create(d))
    {
      ghost var before := State();
      StepKeepsSound(before, Create(d));
      history.CreateDialog(user, d);
      known := known + {d};
      assert State() == After(before, Create(d));
    }

    method DeleteDialog(user: nat, d: Dialog) returns (r: Result<(), ServiceError>)
      requires Valid()
      modifies history
      ensures Valid()
      ensures r.Ok? <==> d in old(history.dialogs) && old(history.dialogs)[d].owner == user
      ensures State() == if r.Ok? then After(old(State()), Step.Delete(d)) else old(State())
    {
      ghost var before := State();
      var done := history.Delete(user, d);
      if done.Err? {
        assert State() == before;
        return Err(Missing);
      }
      StepKeepsSound(before, Step.Delete(d));
      assert State() == After(before, Step.Delete(d));
      r := Ok(());
    }

    /** A request is accepted for the user's own dialog and put behind the run accepted last. */
    method Submit(user: nat, d: Dialog, request: Text) returns (r: Result<(), ServiceError>)
      requires Valid()
      modifies this
      ensures Valid()
      ensures r.Ok? <==> accepting && d in history.dialogs && history.dialogs[d].owner == user
      ensures r.Ok? ==> CanStep(old(State()), Step.Submit(d, request))
      ensures State() == if r.Ok? then After(old(State()), Step.Submit(d, request)) else old(State())
    {
      var stored := history.Get(user, d);
      if stored.Err? {
        return Err(Missing);
      }
      if !accepting {
        return Err(Unavailable);
      }
      assert CanStep(State(), Step.Submit(d, request)) by {
        SoundMeans(State());
        assert d in State().dialogs;
      }
      Enqueue(d, request);
      r := Ok(());
    }

    method Enqueue(d: Dialog, request: Text)
      requires Valid() && CanStep(State(), Step.Submit(d, request))
      modifies this`runs, this`tails, this`tasks
      ensures Valid() && State() == After(old(State()), Step.Submit(d, request))
    {
      ghost var before := State();
      StepKeepsSound(before, Step.Submit(d, request));
      var previous := if d in tails then Some(tails[d]) else None;
      var task := |runs|;
      runs := runs + [Run(d, request, previous, Waiting, [], [], [])];
      tails := tails[d := task];
      tasks := tasks + {task};
      assert State() == After(before, Step.Submit(d, request));
    }

    /** The predecessor is done: START goes out. */
    method Begin(t: nat)
      requires Valid() && CanStep(State(), Step.Begin(t))
      modifies this`runs, broker, broker.served
      ensures Valid() && State() == After(old(State()), Step.Begin(t))
    {
      ghost var before := State();
      StepKeepsSound(before, Step.Begin(t));
      runs := runs[t := runs[t].(stage := Started)];
      broker.Publish(runs[t].dialog, Start);
      assert State() == After(before, Step.Begin(t));
    }

    /** The history is read for the agent; a dialog deleted meanwhile makes the run fail. */
    method Load(t: nat, user: nat)
      requires Valid() && CanStep(State(), Step.Load(t))
      requires runs[t].dialog in history.dialogs ==> history.dialogs[runs[t].dialog].owner == user
      modifies this`runs
      ensures Valid() && State() == After(old(State()), Step.Load(t))
    {
      ghost var before := State();
      StepKeepsSound(before, Step.Load(t));
      var stored := history.Get(user, runs[t].dialog);
      runs := runs[t := match stored
        case Ok(messages) => runs[t].(stage := Running, history := messages)
        case Err(_) => runs[t].(stage := Failing)];
      assert State() == After(before, Step.Load(t));
    }

    /** An event of the agent: a delta is published at once, the response kept. */
    method Emit(t: nat, e: AgentEvent)
      requires Valid() && CanStep(State(), Step.Emit(t, e))
      modifies this`runs, broker, broker.served
      ensures Valid() && State() == After(old(State()), Step.Emit(t, e))
    {
      ghost var before := State();
      StepKeepsSound(before, Step.Emit(t, e));
      runs := runs[t := runs[t].(emitted := runs[t].emitted + [e])];
      if e.AgentDelta? {
        broker.Publish(runs[t].dialog, Delta(e.content));
      }
      assert State() == After(before, Step.Emit(t, e));
    }

    /** The agent raised, or its stream ended without a response. */
    method Break(t: nat)
      requires Valid() && CanStep(State(), Step.Break(t))
      modifies this`runs
      ensures Valid() && State() == After(old(State()), Step.Break(t))
    {
      ghost var before := State();
      StepKeepsSound(before, Step.Break(t));
      runs := runs[t := runs[t].(stage := Failing)];
      assert State() == After(before, Step.Break(t));
    }

    /** Question and answer are appended together. */
    method Persist(t: nat)
      requires Valid() && CanStep(State(), Step.Persist(t))
      modifies this`runs, history, history.clock
      ensures Valid() && State() == After(old(State()), Step.Persist(t))
    {
      ghost var before := State();
      StepKeepsSound(before, Step.Persist(t));
      var saved := StorePair(runs[t]);
      runs := runs[t := match saved
        case Some(pair) => runs[t].(stage := Persisted, saved := pair)
        case None => runs[t].(stage := Failing)];
      assert State() == After(before, Step.Persist(t));
    }

    method StorePair(run: Run) returns (saved: Option<seq<StoredMessage>>)
      requires history.Valid() && Responded(run)
      modifies history, history.clock
      ensures history.Valid()
      ensures saved == if run.dialog in old(history.dialogs)
                       then Some(Pair(old(history.nextMessage), run.request, Answer(run))) else None
      ensures history.nextMessage == old(history.nextMessage) + if saved.Some? then 2 else 0
      ensures MessagesIn(history.dialogs) ==
        if saved.None? then MessagesIn(old(history.dialogs))
        else MessagesIn(old(history.dialogs))[run.dialog := old(history.dialogs)[run.dialog].messages + saved.value]
    {
      var answer := run.emitted[|run.emitted| - 1].content;
      var ids := history.Append(run.dialog, [(User, run.request), (Assistant, answer)]);
      if ids.Err? {
        return None;
      }
      saved := Some([StoredMessage(ids.value[0], User, run.request), StoredMessage(ids.value[1], Assistant, answer)]);
      ghost var before := old(history.dialogs)[run.dialog].messages;
      assert history.dialogs[run.dialog].messages == before + saved.value;
      assert MessagesIn(history.dialogs) == MessagesIn(old(history.dialogs))[run.dialog := before + saved.value];
    }

    /** END carries the id of the stored answer. */
    method Finish(t: nat)
      requires Valid() && CanStep(State(), Step.Finish(t))
      modifies this`runs, broker, broker.served
      ensures Valid() && State() == After(old(State()), Step.Finish(t))
    {
      ghost var before := State();
      StepKeepsSound(before, Step.Finish(t));
      PersistedHasAnswer(before, t);
      var id := runs[t].saved[1].id;
      runs := runs[t := runs[t].(stage := Done)];
      broker.Publish(runs[t].dialog, End(id));
      assert State() == After(before, Step.Finish(t));
    }

    method Fail(t: nat)
      requires Valid() && CanStep(State(), Step.Fail(t))
      modifies this`runs, broker, broker.served
      ensures Valid() && State() == After(old(State()), Step.Fail(t))
    {
      ghost var before := State();
      StepKeepsSound(before, Step.Fail(t));
      runs := runs[t := runs[t].(stage := Done)];
      broker.Publish(runs[t].dialog, Error);
      assert State() == After(before, Step.Fail(t));
    }

    /** `_task_done`: the tail goes only if this task is still the tail. */
    method TaskDone(t: nat)
      requires Valid() && CanStep(State(), Step.TaskDone(t))
      modifies this`tasks, this`tails
      ensures Valid() && State() == After(old(State()), Step.TaskDone(t))
    {
      ghost var before := State();
      StepKeepsSound(before, Step.TaskDone(t));
      var d := runs[t].dialog;
      tasks := tasks - {t};
      if d in tails && tails[d] == t {
        tails := tails - {d};
      }
      assert State() == After(before, Step.TaskDone(t));
    }
  }

  /**
   Whatever steps led to the state of the service: any subscription its broker ever opened, closed by now or not,
   whose reader received a message from START to END with nothing lost in between, gave it the stored answer.
   */
  lemma SubscriberReadsTheAnswer(
    service: AgentService, sub: Subscription, steps: seq<Step>, i: nat, j: nat, id: nat)
    requires service.Valid() && Runs(EMPTY, steps) && service.State() == Finally(EMPTY, steps)
    requires sub in service.broker.everOpened && i < j < |sub.received|
    requires sub.received[i] == Start && sub.received[j] == End(id) && !LostBetween(sub.State(), i, j)
    requires forall k :: i < k < j ==> !sub.received[k].Start?
    ensures Answered(service.runs, sub.dialogId, id, Heard(sub.received[i + 1..j]))
  {
    assert service.broker.Follows(sub);
    ReceivedTextIsStored(steps, sub.dialogId, sub.from, sub.State(), i, j, id);
  }

  lemma UnknownIsNotStored(s: State, d: Dialog)
    requires Sound(s) && d !in s.known
    ensures d !in s.dialogs
  {
    SoundMeans(s);
  }

  lemma PersistedHasAnswer(s: State, t: nat)
    requires Sound(s) && InStage(s, t, Persisted)
    ensures |s.runs[t].saved| == 2
  {
    assert Holds(s, Progress);
    assert Fits(s.runs[t]);
  }
}
