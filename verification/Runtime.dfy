/** The tool-calling loop `Agent.run` (`agent/runtime.py`). */
module Runtime {
  import opened Wrappers
  import opened Messages
  import opened Provider

  datatype AgentError = InvalidResponse | IterationLimit | ProviderRaised

  /** The provider's stream and the tools' results depend on the context and on the round. */
  type Model = (seq<Message>, nat) -> LLMStream
  type Tools = (ToolCall, nat) -> ToolResult

  datatype ResultType = FinalResult | ToolCallResult | InvalidResult

  function TypeOf(r: LLMResponse): ResultType {
    if r.content.Some? && |r.toolCalls| == 0 then FinalResult
    else if r.content.None? && |r.toolCalls| == 1 then ToolCallResult
    else InvalidResult
  }

  /** The stream of a round asks for exactly this call and says nothing. */
  predicate AsksFor(s: LLMStream, call: ToolCall) {
    s == LLMStream([Response(LLMResponse(None, [call]))], false)
  }

  /** Round `k` asked for a call, and the context goes on with it and the tool's answer, under its id and name. */
  ghost predicate Round(context: seq<Message>, base: nat, k: nat, model: Model, tools: Tools) {
    && base + 2 * k + 2 <= |context|
    && context[base + 2 * k].Called?
    && AsksFor(model(context[..base + 2 * k], k), context[base + 2 * k].call)
    && var call := context[base + 2 * k].call;
       context[base + 2 * k + 1] == Returned(call.id, call.name, tools(call, k))
  }

  /** The context is the base followed by the call and result of each of the first `rounds` rounds. */
  ghost predicate Grown(context: seq<Message>, base: seq<Message>, rounds: nat, model: Model, tools: Tools) {
    && |context| == |base| + 2 * rounds
    && context[..|base|] == base
    && forall k :: 0 <= k < rounds ==> Round(context, |base|, k, model, tools)
  }

  lemma GrownByOne(context: seq<Message>, base: seq<Message>, rounds: nat, model: Model, tools: Tools, call: ToolCall)
    requires Grown(context, base, rounds, model, tools) && AsksFor(model(context, rounds), call)
    ensures Grown(
      context + [Called(call), Returned(call.id, call.name, tools(call, rounds))], base, rounds + 1, model, tools)
  {
    var more := context + [Called(call), Returned(call.id, call.name, tools(call, rounds))];
    var n := |base|;
    assert more[..n] == base;
    forall k | 0 <= k < rounds + 1 ensures Round(more, n, k, model, tools) {
      if k < rounds {
        assert Round(context, n, k, model, tools);
        assert more[..n + 2 * k] == context[..n + 2 * k];
      } else {
        assert more[..n + 2 * k] == context;
      }
    }
  }

  function AgentDeltas(texts: seq<Text>): (r: seq<AgentEvent>)
    ensures |r| == |texts| && forall i :: 0 <= i < |r| ==> r[i] == AgentDelta(texts[i])
  {
    seq(|texts|, i requires 0 <= i < |texts| => AgentDelta(texts[i]))
  }

  lemma {:induction false} SpokenIsJoined(texts: seq<Text>)
    ensures Spoken(AgentDeltas(texts)) == Joined(texts)
  {
    if texts != [] {
      SpokenIsJoined(texts[..|texts| - 1]);
      assert AgentDeltas(texts)[..|texts| - 1] == AgentDeltas(texts[..|texts| - 1]);
    }
  }

  /** The first `i` events are deltas, possibly followed by one response. */
  ghost predicate Heard(events: seq<LLMEvent>, texts: seq<Text>, response: Option<LLMResponse>) {
    events == TextDeltas(texts) + (if response.Some? then [Response(response.value)] else [])
  }

  /** The texts are those of all deltas up to the first event that is none. */
  ghost predicate AreDeltasOf(texts: seq<Text>, events: seq<LLMEvent>) {
    && |texts| <= |events| && TextDeltas(texts) == events[..|texts|]
    && (|texts| < |events| ==> !events[|texts|].TextDelta?)
  }

  /** The loop over one stream: deltas until a response, and nothing after it. */
  method Listen(s: LLMStream) returns (texts: seq<Text>, response: Option<LLMResponse>, ok: bool)
    ensures ok ==> Heard(s.events, texts, response)
    ensures ok <==> exists t: seq<Text>, r: Option<LLMResponse> :: Heard(s.events, t, r)
    ensures AreDeltasOf(texts, s.events)
  {
    texts, response, ok := [], None, true;
    for i := 0 to |s.events|
      invariant Heard(s.events[..i], texts, response)
    {
      assert s.events[..i + 1] == s.events[..i] + [s.events[i]];
      match s.events[i] {
        case TextDelta(content) =>
          if response.Some? {
            NothingAfterResponse(s.events, i - 1);
            return texts, response, false;
          }
          assert TextDeltas(texts + [content]) == TextDeltas(texts) + [TextDelta(content)];
          texts := texts + [content];
        case Response(r) =>
          if response.Some? {
            NothingAfterResponse(s.events, i - 1);
            return texts, response, false;
          }
          response := Some(r);
        case OtherEvent =>
          OtherIsNotHeard(s.events, i);
          return texts, response, false;
      }
    }
    assert s.events[..|s.events|] == s.events;
  }

  lemma HeardShape(events: seq<LLMEvent>, t: seq<Text>, r: Option<LLMResponse>)
    requires Heard(events, t, r)
    ensures |events| == |t| + (if r.Some? then 1 else 0)
    ensures forall i :: 0 <= i < |t| ==> events[i] == TextDelta(t[i])
    ensures r.Some? ==> events[|t|] == Response(r.value)
  {
  }

  lemma NothingAfterResponse(events: seq<LLMEvent>, i: nat)
    requires i + 1 < |events| && events[i].Response?
    ensures forall t: seq<Text>, r: Option<LLMResponse> :: !Heard(events, t, r)
  {
    forall t: seq<Text>, r: Option<LLMResponse> | Heard(events, t, r) ensures false {
      HeardShape(events, t, r);
    }
  }

  lemma OtherIsNotHeard(events: seq<LLMEvent>, i: nat)
    requires i < |events| && events[i].OtherEvent?
    ensures forall t: seq<Text>, r: Option<LLMResponse> :: !Heard(events, t, r)
  {
    forall t: seq<Text>, r: Option<LLMResponse> | Heard(events, t, r) ensures false {
      HeardShape(events, t, r);
    }
  }

  /** What one round of the loop decides. */
  datatype Verdict = Answer(content: Text) | Call(call: ToolCall) | Stop(error: AgentError)

  method Judge(s: LLMStream) returns (texts: seq<Text>, verdict: Verdict)
    ensures verdict.Answer? ==> s.events == TextDeltas(texts) + [Response(LLMResponse(Some(verdict.content), []))]
    ensures verdict.Answer? ==> !s.raised && verdict.content == Joined(texts)
    ensures verdict.Call? ==> AsksFor(s, verdict.call) && texts == []
    ensures verdict.Stop? ==> verdict.error == InvalidResponse || (verdict.error == ProviderRaised && s.raised)
    ensures Coherent(s) && verdict.Stop? ==> verdict.error == ProviderRaised
    ensures AreDeltasOf(texts, s.events)
  {
    var response, ok;
    texts, response, ok := Listen(s);
    if Coherent(s) {
      CoherentIsHeard(s, texts, response, ok);
    }
    if !ok {
      return texts, Stop(InvalidResponse);
    }
    if s.raised {
      return texts, Stop(ProviderRaised);
    }
    if response.None? {
      return texts, Stop(InvalidResponse);
    }
    match TypeOf(response.value) {
      case InvalidResult => verdict := Stop(InvalidResponse);
      case FinalResult =>
        if Joined(texts) != response.value.content.value {
          return texts, Stop(InvalidResponse);
        }
        verdict := Answer(response.value.content.value);
      case ToolCallResult =>
        if texts != [] {
          return texts, Stop(InvalidResponse);
        }
        assert response.value.toolCalls == [response.value.toolCalls[0]];
        assert TextDeltas([]) + [Response(response.value)] == [Response(response.value)];
        verdict := Call(response.value.toolCalls[0]);
    }
  }

  lemma HeardOnce(events: seq<LLMEvent>, t: seq<Text>, r: Option<LLMResponse>, u: seq<Text>, q: Option<LLMResponse>)
    requires Heard(events, t, r) && Heard(events, u, q)
    ensures t == u && r == q
  {
    HeardShape(events, t, r);
    HeardShape(events, u, q);
    assert |t| == |u|;
    assert forall i :: 0 <= i < |t| ==> TextDelta(t[i]) == TextDelta(u[i]);
  }

  /** A coherent stream passes every check of the loop. */
  lemma CoherentIsHeard(s: LLMStream, texts: seq<Text>, response: Option<LLMResponse>, ok: bool)
    requires Coherent(s) && (ok ==> Heard(s.events, texts, response))
    requires ok <==> exists t: seq<Text>, r: Option<LLMResponse> :: Heard(s.events, t, r)
    ensures ok
    ensures !s.raised ==> response.Some?
    ensures !s.raised && response.value.content.Some? ==> response.value == LLMResponse(Some(Joined(texts)), [])
    ensures !s.raised && response.value.content.None? ==> texts == [] && |response.value.toolCalls| == 1
  {
    var t: seq<Text> :| CoherentWith(s, t);
    if s.raised {
      assert Heard(s.events, t, None) by { assert TextDeltas(t) + [] == TextDeltas(t); }
    } else if s.events == TextDeltas(t) + [Response(LLMResponse(Some(Joined(t)), []))] {
      assert Heard(s.events, t, Some(LLMResponse(Some(Joined(t)), [])));
      HeardOnce(s.events, texts, response, t, Some(LLMResponse(Some(Joined(t)), [])));
    } else {
      assert TextDeltas([]) + [s.events[0]] == s.events;
      assert Heard(s.events, [], Some(s.events[0].response));
      HeardOnce(s.events, texts, response, [], Some(s.events[0].response));
    }
  }

  lemma DeltasAreStream(texts: seq<Text>)
    ensures AgentStream(AgentDeltas(texts))
    ensures AgentStream(AgentDeltas(texts) + [AgentResponse(Joined(texts))])
  {
    SpokenIsJoined(texts);
    assert (AgentDeltas(texts) + [AgentResponse(Joined(texts))])[..|texts|] == AgentDeltas(texts);
  }

  /**
   * Whatever the model streams, the run yields the deltas of the last round, up to its first other event, and
   * then at most one response, which is these deltas joined;
   * the context is the base and one call with its result per round, and there are at most `maxIterations` rounds.
   */
  method Run(
    prompt: Text, note: seq<Message>, history: seq<Message>, request: Text, maxIterations: nat, model: Model,
    tools: Tools)
    returns (emitted: seq<AgentEvent>, error: Option<AgentError>, context: seq<Message>, rounds: nat,
      ghost texts: seq<Text>)
    requires maxIterations > 0
    ensures AgentStream(emitted)
    ensures error.None? <==> emitted != [] && emitted[|emitted| - 1].AgentResponse?
    ensures rounds <= maxIterations
    ensures Grown(
      context, [Said(System, prompt)] + note + history + [Said(User, request)], rounds, model, tools)
    ensures error.None? ==> rounds < maxIterations && !model(context, rounds).raised
    ensures error.None? ==> var s := model(context, rounds);
      s.events != [] && s.events[|s.events| - 1] == Response(LLMResponse(Some(emitted[|emitted| - 1].content), []))
    ensures error == Some(IterationLimit) <==> rounds == maxIterations
    ensures emitted == AgentDeltas(texts) + (if error.None? then [AgentResponse(Joined(texts))] else [])
    ensures if rounds == maxIterations then texts == [] else AreDeltasOf(texts, model(context, rounds).events)
    ensures error == Some(ProviderRaised) ==> rounds < maxIterations && model(context, rounds).raised
    ensures (forall c, k :: Coherent(model(c, k))) ==> error != Some(InvalidResponse)
  {
    context := [Said(System, prompt)] + note + history + [Said(User, request)];
    ghost var base := context;
    emitted, error, rounds, texts := [], None, 0, [];
    while rounds < maxIterations
      invariant 0 <= rounds <= maxIterations && Grown(context, base, rounds, model, tools)
      invariant emitted == [] && texts == []
    {
      var s := model(context, rounds);
      var spoken, verdict := Judge(s);
      texts := spoken;
      emitted := AgentDeltas(spoken);
      DeltasAreStream(texts);
      match verdict {
        case Answer(content) =>
          emitted := emitted + [AgentResponse(content)];
          return;
        case Call(call) =>
          GrownByOne(context, base, rounds, model, tools, call);
          context := context + [Called(call), Returned(call.id, call.name, tools(call, rounds))];
        case Stop(problem) =>
          error := Some(problem);
          return;
      }
      texts := [];
      rounds := rounds + 1;
    }
    error := Some(IterationLimit);
  }
}
