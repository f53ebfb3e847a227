/** The chunk loop of `LiteLLMProvider.stream` (`agent/providers/litellm.py`). */
module Provider {
  import opened Wrappers
  import opened Messages
  import opened Sequences

  /** A field of a chunk: missing, text, or something else. */
  datatype Field = Missing | TextField(text: Text) | OtherField

  datatype CallPart = CallPart(index: Option<int>, id: Field, name: Field, arguments: Field)

  datatype Choice = Choice(content: Field, calls: seq<CallPart>)

  datatype Chunk = Chunk(choices: seq<Choice>)

  datatype LLMResponse = LLMResponse(content: Option<Text>, toolCalls: seq<ToolCall>)

  datatype LLMEvent = TextDelta(content: Text) | Response(response: LLMResponse) | OtherEvent

  /** What the provider yields before it ends or raises. */
  datatype LLMStream = LLMStream(events: seq<LLMEvent>, raised: bool)

  const ParseJson: string -> Option<Json>
  const Strip: string -> string

  // ---------------------------------------------------------------- what a stream of chunks says

  function Content(f: Field): Text {
    if f.TextField? then f.text else ""
  }

  function TextIn(c: Chunk): Text {
    if c.choices == [] then "" else Content(c.choices[0].content)
  }

  function CallsIn(c: Chunk): seq<CallPart> {
    if c.choices == [] then [] else c.choices[0].calls
  }

  const TextOf := (c: Chunk) => TextIn(c)
  const CallsOf := (c: Chunk) => CallsIn(c)
  const FragmentOf := (c: Chunk) => if TextIn(c) == "" then [] else [TextIn(c)]
  const IdOf := (p: CallPart) => Content(p.id)
  const NameOf := (p: CallPart) => Content(p.name)
  const ArgumentsOf := (p: CallPart) => Content(p.arguments)

  function AllText(chunks: seq<Chunk>): Text {
    Concat(chunks, TextOf)
  }

  /** The texts of the chunks that have one. */
  function Fragments(chunks: seq<Chunk>): seq<Text> {
    Concat(chunks, FragmentOf)
  }

  function AllCalls(chunks: seq<Chunk>): seq<CallPart> {
    Concat(chunks, CallsOf)
  }

  /** The call as its parts spell it: `_ToolCallParts` under index 0. */
  datatype Collected = Collected(id: string, name: string, arguments: string)

  function Collect(parts: seq<CallPart>): Collected {
    Collected(Concat(parts, IdOf), Concat(parts, NameOf), Concat(parts, ArgumentsOf))
  }

  predicate GoodPart(p: CallPart) {
    p.index == Some(0) && !p.id.OtherField? && !p.name.OtherField? && p.arguments.TextField?
  }

  predicate GoodParts(parts: seq<CallPart>) {
    forall i :: 0 <= i < |parts| ==> GoodPart(parts[i])
  }

  predicate GoodChunk(c: Chunk) {
    c.choices == [] || (|c.choices| == 1 && !c.choices[0].content.OtherField? && GoodParts(c.choices[0].calls))
  }

  predicate GoodChunks(chunks: seq<Chunk>) {
    forall i :: 0 <= i < |chunks| ==> GoodChunk(chunks[i])
  }

  predicate SawChoice(chunks: seq<Chunk>) {
    exists i :: 0 <= i < |chunks| && chunks[i].choices != []
  }

  /** The parts spell a call: arguments that are a JSON object, and an id and a name that are not blank. */
  predicate Readable(parts: seq<CallPart>) {
    && ParseJson(Concat(parts, ArgumentsOf)).Some? && ParseJson(Concat(parts, ArgumentsOf)).value.isObject
    && Strip(Concat(parts, IdOf)) != "" && Strip(Concat(parts, NameOf)) != ""
  }

  /** The response to a stream: its text, or the one call that its parts spell. */
  predicate Answers(r: LLMResponse, text: Text, parts: seq<CallPart>) {
    if parts == [] then r.content == Some(text) && r.toolCalls == []
    else
      && r.content == None && |r.toolCalls| == 1
      && r.toolCalls[0].id == Strip(Concat(parts, IdOf))
      && r.toolCalls[0].name == Strip(Concat(parts, NameOf))
      && Some(r.toolCalls[0].arguments) == ParseJson(Concat(parts, ArgumentsOf))
  }

  /** Exactly the streams the provider accepts. */
  predicate Accepts(chunks: seq<Chunk>) {
    && GoodChunks(chunks) && SawChoice(chunks)
    && (AllText(chunks) == "" || AllCalls(chunks) == [])
    && (AllCalls(chunks) == [] || Readable(AllCalls(chunks)))
  }

  /** Chunk `i` is ill-typed, or with it the stream mixes text and calls. */
  predicate Fails(chunks: seq<Chunk>, i: nat)
    requires i < |chunks|
  {
    !GoodChunk(chunks[i]) || (AllText(chunks[..i + 1]) != "" && AllCalls(chunks[..i + 1]) != [])
  }

  ghost predicate NoneFails(chunks: seq<Chunk>, k: nat)
    requires k <= |chunks|
  {
    forall i: nat :: i < k ==> !Fails(chunks, i)
  }

  /** Chunk `k` is the first that fails, if one does. */
  ghost predicate FailsFirst(chunks: seq<Chunk>, k: nat) {
    k <= |chunks| && NoneFails(chunks, k) && (k < |chunks| ==> Fails(chunks, k))
  }

  // ---------------------------------------------------------------- what consumers can rely on

  function Joined(texts: seq<Text>): Text {
    if texts == [] then "" else Joined(texts[..|texts| - 1]) + texts[|texts| - 1]
  }

  function TextDeltas(texts: seq<Text>): (r: seq<LLMEvent>)
    ensures |r| == |texts| && forall i :: 0 <= i < |r| ==> r[i] == TextDelta(texts[i])
  {
    seq(|texts|, i requires 0 <= i < |texts| => TextDelta(texts[i]))
  }

  /** Deltas followed by their text as the final content, or no delta and one tool call; or deltas and an exception. */
  ghost predicate Coherent(s: LLMStream) {
    exists texts: seq<Text> :: CoherentWith(s, texts)
  }

  ghost predicate CoherentWith(s: LLMStream, texts: seq<Text>) {
    if s.raised then s.events == TextDeltas(texts)
    else
      || s.events == TextDeltas(texts) + [Response(LLMResponse(Some(Joined(texts)), []))]
      || (|s.events| == 1 && s.events[0].Response? && s.events[0].response.content == None
        && |s.events[0].response.toolCalls| == 1)
  }

  lemma JoinedPush(texts: seq<Text>, more: Text)
    ensures Joined(texts + [more]) == Joined(texts) + more
  {
    assert (texts + [more])[..|texts|] == texts;
  }

  lemma NextChunk(chunks: seq<Chunk>, i: nat)
    requires i < |chunks|
    ensures AllText(chunks[..i + 1]) == AllText(chunks[..i]) + TextIn(chunks[i])
    ensures AllCalls(chunks[..i + 1]) == AllCalls(chunks[..i]) + CallsIn(chunks[i])
    ensures Fragments(chunks[..i + 1]) == Fragments(chunks[..i]) + FragmentOf(chunks[i])
  {
    assert chunks[..i + 1] == chunks[..i] + [chunks[i]];
    ConcatPush(chunks[..i], chunks[i], FragmentOf);
    ConcatPush(chunks[..i], chunks[i], TextOf);
    ConcatPush(chunks[..i], chunks[i], CallsOf);
  }

  /** The fragments joined are the text. */
  lemma {:induction false} FragmentsSpell(chunks: seq<Chunk>)
    ensures Joined(Fragments(chunks)) == AllText(chunks)
    ensures Fragments(chunks) == [] <==> AllText(chunks) == ""
  {
    if chunks != [] {
      var n := |chunks| - 1;
      FragmentsSpell(chunks[..n]);
      if TextIn(chunks[n]) == "" {
        assert Fragments(chunks[..n]) + [] == Fragments(chunks[..n]);
        assert AllText(chunks[..n]) + "" == AllText(chunks[..n]);
      } else {
        JoinedPush(Fragments(chunks[..n]), TextIn(chunks[n]));
      }
    }
  }

  /** A stream with an ill-typed or mixing chunk is not accepted, whatever follows. */
  lemma BadStart(chunks: seq<Chunk>, i: nat)
    requires i < |chunks| && Fails(chunks, i)
    ensures !Accepts(chunks)
  {
    ConcatGrows(chunks, i + 1, TextOf);
    ConcatGrows(chunks, i + 1, CallsOf);
  }

  lemma NoneFailsYet(chunks: seq<Chunk>, i: nat)
    requires i < |chunks| && NoneFails(chunks, i) && !Fails(chunks, i)
    ensures NoneFails(chunks, i + 1)
  {
    forall j: nat | j < i + 1 ensures !Fails(chunks, j) {
      if j < i {
      } else {
        assert j == i;
      }
    }
  }

  lemma AllGood(chunks: seq<Chunk>)
    requires NoneFails(chunks, |chunks|)
    ensures GoodChunks(chunks)
  {
    forall i | 0 <= i < |chunks| ensures GoodChunk(chunks[i]) {
      assert !Fails(chunks, i);
    }
  }

  // ---------------------------------------------------------------- the loop

  /** The local variables of the loop: the deltas yielded and the call collected so far. */
  datatype Progress = Progress(texts: seq<Text>, collected: Option<Collected>)

  function CollectedFrom(parts: seq<CallPart>): Option<Collected> {
    if parts == [] then None else Some(Collect(parts))
  }

  /** The variables hold what the chunks so far have said, as text or as parts of a call. */
  predicate Holds(p: Progress, chunks: seq<Chunk>) {
    && p.texts == Fragments(chunks) && p.collected == CollectedFrom(AllCalls(chunks))
    && (AllText(chunks) == "" || AllCalls(chunks) == [])
  }

  function WithPart(c: Option<Collected>, p: CallPart): Collected {
    var known := if c.Some? then c.value else Collected("", "", "");
    Collected(known.id + Content(p.id), known.name + Content(p.name), known.arguments + Content(p.arguments))
  }

  lemma CollectPush(parts: seq<CallPart>, p: CallPart)
    ensures CollectedFrom(parts + [p]) == Some(WithPart(CollectedFrom(parts), p))
  {
    ConcatPush(parts, p, IdOf);
    ConcatPush(parts, p, NameOf);
    ConcatPush(parts, p, ArgumentsOf);
  }

  lemma NextPart(parts: seq<CallPart>, calls: seq<CallPart>, j: nat)
    requires j < |calls|
    ensures CollectedFrom(parts + calls[..j + 1]) == Some(WithPart(CollectedFrom(parts + calls[..j]), calls[j]))
    ensures GoodParts(calls[..j + 1]) <==> GoodParts(calls[..j]) && GoodPart(calls[j])
  {
    assert parts + calls[..j + 1] == parts + calls[..j] + [calls[j]];
    assert calls[..j + 1] == calls[..j] + [calls[j]];
    CollectPush(parts + calls[..j], calls[j]);
  }

  /** One chunk's call parts are added to the collected call, or an ill-typed one is found. */
  method AddParts(calls: seq<CallPart>, before: Option<Collected>, ghost parts: seq<CallPart>)
    returns (after: Option<Collected>, ok: bool)
    requires before == CollectedFrom(parts)
    ensures ok <==> GoodParts(calls)
    ensures ok ==> after == CollectedFrom(parts + calls)
  {
    after, ok := before, true;
    assert parts + calls[..0] == parts;
    for j := 0 to |calls|
      invariant GoodParts(calls[..j]) && after == CollectedFrom(parts + calls[..j])
    {
      var call := calls[j];
      if call.index != Some(0) || call.id.OtherField? || call.name.OtherField? || !call.arguments.TextField? {
        return after, false;
      }
      NextPart(parts, calls, j);
      after := Some(WithPart(after, call));
    }
    assert calls[..|calls|] == calls;
  }

  /** The body of the loop; a chunk that fails yields nothing. */
  method AddChunk(chunks: seq<Chunk>, i: nat, p: Progress) returns (next: Progress, ok: bool)
    requires i < |chunks| && Holds(p, chunks[..i])
    ensures ok <==> !Fails(chunks, i)
    ensures if ok then Holds(next, chunks[..i + 1]) else next.texts == p.texts
  {
    ghost var before := chunks[..i];
    var c := chunks[i];
    NextChunk(chunks, i);
    FragmentsSpell(before);
    next, ok := p, true;
    if c.choices == [] {
      assert AllText(before) + "" == AllText(before) && AllCalls(before) + [] == AllCalls(before);
      assert Fragments(before) + [] == Fragments(before);
      return;
    }
    if |c.choices| != 1 || c.choices[0].content.OtherField? {
      return next, false;
    }
    var content, calls := Content(c.choices[0].content), c.choices[0].calls;
    if (content != "" && calls != []) || (content != "" && p.collected.Some?) || (calls != [] && p.texts != []) {
      return next, false;
    }
    if content != "" {
      next := next.(texts := p.texts + [content]);
    }
    var collected;
    collected, ok := AddParts(calls, p.collected, AllCalls(before));
    next := next.(collected := collected);
  }

  /** The call, if its arguments are a JSON object and id and name are not blank. */
  function CallOf(c: Collected): Option<ToolCall> {
    var arguments := ParseJson(c.arguments);
    if arguments.None? || !arguments.value.isObject || Strip(c.id) == "" || Strip(c.name) == "" then None
    else Some(ToolCall(Strip(c.id), Strip(c.name), arguments.value))
  }

  /** After the last chunk: the final content, or the call if it is one. */
  method Finish(p: Progress, ghost chunks: seq<Chunk>) returns (r: Option<LLMResponse>)
    requires Holds(p, chunks)
    ensures r.Some? <==> AllCalls(chunks) == [] || Readable(AllCalls(chunks))
    ensures r.Some? ==> Answers(r.value, AllText(chunks), AllCalls(chunks))
  {
    FragmentsSpell(chunks);
    if p.collected.None? {
      return Some(LLMResponse(Some(Joined(p.texts)), []));
    }
    var call := CallOf(p.collected.value);
    r := if call.Some? then Some(LLMResponse(None, [call.value])) else None;
  }

  /**
   * Accepted are exactly the well-typed streams with a choice that do not mix text and calls and whose call can be
   * read. The response is the text or the call that the chunks spell; the deltas are the texts of the chunks, one
   * by one, up to the first chunk that fails.
   */
  method StreamChunks(chunks: seq<Chunk>) returns (texts: seq<Text>, response: Option<LLMResponse>, ghost k: nat)
    ensures response.Some? <==> Accepts(chunks)
    ensures FailsFirst(chunks, k) && texts == Fragments(chunks[..k])
    ensures response.Some? ==> k == |chunks| && Answers(response.value, AllText(chunks), AllCalls(chunks))
  {
    var p, saw := Progress([], None), false;
    for i := 0 to |chunks|
      invariant saw <==> exists j :: 0 <= j < i && chunks[j].choices != []
      invariant Holds(p, chunks[..i]) && NoneFails(chunks, i)
    {
      var ok;
      p, ok := AddChunk(chunks, i, p);
      if !ok {
        BadStart(chunks, i);
        return p.texts, None, i;
      }
      NoneFailsYet(chunks, i);
      saw := saw || chunks[i].choices != [];
    }
    texts, response, k := p.texts, None, |chunks|;
    AllGood(chunks);
    assert chunks[..|chunks|] == chunks;
    if saw {
      response := Finish(p, chunks);
    }
  }

  /** The deltas of the texts up to the chunk that fails; the response after them, unless the provider raises. */
  ghost predicate Yields(s: LLMStream, chunks: seq<Chunk>, k: nat) {
    if s.raised then FailsFirst(chunks, k) && s.events == TextDeltas(Fragments(chunks[..k]))
    else exists r: LLMResponse ::
      s.events == TextDeltas(Fragments(chunks)) + [Response(r)] && Answers(r, AllText(chunks), AllCalls(chunks))
  }

  /** The events the provider yields for a stream of chunks. */
  method Stream(chunks: seq<Chunk>) returns (s: LLMStream, ghost k: nat)
    ensures Coherent(s) && (s.raised <==> !Accepts(chunks)) && Yields(s, chunks, k)
  {
    var texts, response;
    texts, response, k := StreamChunks(chunks);
    if response.None? {
      s := LLMStream(TextDeltas(texts), true);
    } else {
      assert chunks[..|chunks|] == chunks;
      FragmentsSpell(chunks);
      assert AllCalls(chunks) != [] ==> texts == [];
      s := LLMStream(TextDeltas(texts) + [Response(response.value)], false);
    }
    assert CoherentWith(s, texts);
  }

  // ---------------------------------------------------------------- plain streams

  function TextChunks(texts: seq<Text>): (r: seq<Chunk>)
    ensures |r| == |texts|
    ensures forall i :: 0 <= i < |r| ==> r[i] == Chunk([Choice(TextField(texts[i]), [])])
  {
    seq(|texts|, i requires 0 <= i < |texts| => Chunk([Choice(TextField(texts[i]), [])]))
  }

  lemma {:induction false} TextChunksSpell(texts: seq<Text>)
    requires forall i :: 0 <= i < |texts| ==> texts[i] != ""
    ensures Fragments(TextChunks(texts)) == texts && AllCalls(TextChunks(texts)) == []
  {
    if texts != [] {
      var n := |texts| - 1;
      TextChunksSpell(texts[..n]);
      assert TextChunks(texts)[..n] == TextChunks(texts[..n]);
      assert texts == texts[..n] + [texts[n]];
    }
  }

  lemma TextChunksAreGood(texts: seq<Text>)
    requires texts != []
    ensures GoodChunks(TextChunks(texts)) && SawChoice(TextChunks(texts))
  {
    assert TextChunks(texts)[0].choices != [];
  }

  lemma TextChunksJoin(texts: seq<Text>)
    requires forall i :: 0 <= i < |texts| ==> texts[i] != ""
    ensures AllText(TextChunks(texts)) == Joined(texts)
  {
    TextChunksSpell(texts);
    FragmentsSpell(TextChunks(texts));
  }

  /** Chunks that carry texts are passed on text by text, and answered by all of them. */
  lemma TextIsPassedOn(texts: seq<Text>)
    requires texts != [] && forall i :: 0 <= i < |texts| ==> texts[i] != ""
    ensures Accepts(TextChunks(texts)) && Fragments(TextChunks(texts)) == texts
    ensures AllText(TextChunks(texts)) == Joined(texts) && AllCalls(TextChunks(texts)) == []
  {
    TextChunksAreGood(texts);
    TextChunksJoin(texts);
    TextChunksSpell(texts);
  }

  function CallChunks(ids: seq<Text>, names: seq<Text>, arguments: seq<Text>): (r: seq<Chunk>)
    requires |ids| == |names| == |arguments|
    ensures |r| == |ids|
    ensures forall i :: 0 <= i < |r| ==>
      r[i] == Chunk([Choice(Missing,
        [CallPart(Some(0), TextField(ids[i]), TextField(names[i]), TextField(arguments[i]))])])
  {
    seq(|ids|, i requires 0 <= i < |ids| =>
      Chunk([Choice(Missing,
        [CallPart(Some(0), TextField(ids[i]), TextField(names[i]), TextField(arguments[i]))])]))
  }

  lemma {:induction false} CallChunksSpell(ids: seq<Text>, names: seq<Text>, arguments: seq<Text>)
    requires |ids| == |names| == |arguments|
    ensures var parts := AllCalls(CallChunks(ids, names, arguments));
      && (parts == [] <==> ids == []) && AllText(CallChunks(ids, names, arguments)) == ""
      && Concat(parts, IdOf) == Joined(ids) && Concat(parts, NameOf) == Joined(names)
      && Concat(parts, ArgumentsOf) == Joined(arguments)
  {
    if ids != [] {
      var n := |ids| - 1;
      var chunks, before := CallChunks(ids, names, arguments), CallChunks(ids[..n], names[..n], arguments[..n]);
      CallChunksSpell(ids[..n], names[..n], arguments[..n]);
      assert chunks[..n] == before;
      var p := CallPart(Some(0), TextField(ids[n]), TextField(names[n]), TextField(arguments[n]));
      assert CallsIn(chunks[n]) == [p];
      ConcatPush(AllCalls(before), p, IdOf);
      ConcatPush(AllCalls(before), p, NameOf);
      ConcatPush(AllCalls(before), p, ArgumentsOf);
    }
  }

  /** Chunks that carry pieces of a call are answered by the call with the joined id, name and arguments. */
  lemma CallIsPassedOn(ids: seq<Text>, names: seq<Text>, arguments: seq<Text>, r: LLMResponse)
    requires |ids| == |names| == |arguments| > 0
    ensures var chunks := CallChunks(ids, names, arguments);
      && (Accepts(chunks) <==>
            && ParseJson(Joined(arguments)).Some? && ParseJson(Joined(arguments)).value.isObject
            && Strip(Joined(ids)) != "" && Strip(Joined(names)) != "")
      && (Answers(r, AllText(chunks), AllCalls(chunks)) <==>
            && r.content == None && |r.toolCalls| == 1
            && r.toolCalls[0].id == Strip(Joined(ids)) && r.toolCalls[0].name == Strip(Joined(names))
            && Some(r.toolCalls[0].arguments) == ParseJson(Joined(arguments)))
  {
    var chunks := CallChunks(ids, names, arguments);
    CallChunksSpell(ids, names, arguments);
    assert GoodChunks(chunks) by {
      forall i | 0 <= i < |chunks| ensures GoodChunk(chunks[i]) {
        assert chunks[i].choices[0].calls[0].index == Some(0);
      }
    }
    assert SawChoice(chunks) by {
      assert chunks[0].choices != [];
    }
  }

  /** Refused: a chunk with two choices, content that is no text, a second call, or a part of a call that is no text. */
  lemma IllTypedIsRefused(chunks: seq<Chunk>, i: nat, p: CallPart)
    requires i < |chunks| && chunks[i].choices != []
    requires
      || |chunks[i].choices| > 1 || chunks[i].choices[0].content.OtherField?
      || (p in chunks[i].choices[0].calls
          && (p.index != Some(0) || p.id.OtherField? || p.name.OtherField? || !p.arguments.TextField?))
    ensures !Accepts(chunks)
  {
    var calls := chunks[i].choices[0].calls;
    if |chunks[i].choices| == 1 && !chunks[i].choices[0].content.OtherField? {
      var j :| 0 <= j < |calls| && calls[j] == p;
      assert !GoodPart(calls[j]);
    }
    assert !GoodChunk(chunks[i]);
  }

  // ---------------------------------------------------------------- splitting

  lemma TypesOfTwo(a: seq<Chunk>, b: seq<Chunk>)
    ensures SawChoice(a + b) <==> SawChoice(a) || SawChoice(b)
    ensures GoodChunks(a + b) <==> GoodChunks(a) && GoodChunks(b)
  {
    forall i | 0 <= i < |a| ensures (a + b)[i] == a[i] {
    }
    forall i | 0 <= i < |b| ensures (a + b)[|a| + i] == b[i] {
    }
  }

  lemma CollectOfTwo(p: seq<CallPart>, q: seq<CallPart>)
    ensures var a, b := Collect(p), Collect(q);
      Collect(p + q) == Collected(a.id + b.id, a.name + b.name, a.arguments + b.arguments)
  {
    ConcatOfTwo(p, q, IdOf);
    ConcatOfTwo(p, q, NameOf);
    ConcatOfTwo(p, q, ArgumentsOf);
  }

  /** Chunks that spell the same text or the same parts of a call. */
  ghost predicate SpellTheSame(a: seq<Chunk>, b: seq<Chunk>) {
    && GoodChunks(a) && GoodChunks(b) && (SawChoice(a) <==> SawChoice(b))
    && AllText(a) == AllText(b) && (AllCalls(a) == [] <==> AllCalls(b) == [])
      && Collect(AllCalls(a)) == Collect(AllCalls(b))
  }

  lemma SpellBefore(x: seq<Chunk>, a: seq<Chunk>, b: seq<Chunk>)
    requires SpellTheSame(a, b) && GoodChunks(x)
    ensures SpellTheSame(x + a, x + b)
  {
    ConcatOfTwo(x, a, TextOf);
    ConcatOfTwo(x, a, CallsOf);
    ConcatOfTwo(x, b, TextOf);
    ConcatOfTwo(x, b, CallsOf);
    TypesOfTwo(x, a);
    TypesOfTwo(x, b);
    CollectOfTwo(AllCalls(x), AllCalls(a));
    CollectOfTwo(AllCalls(x), AllCalls(b));
  }

  lemma SpellAfter(a: seq<Chunk>, b: seq<Chunk>, y: seq<Chunk>)
    requires SpellTheSame(a, b) && GoodChunks(y)
    ensures SpellTheSame(a + y, b + y)
  {
    ConcatOfTwo(a, y, TextOf);
    ConcatOfTwo(a, y, CallsOf);
    ConcatOfTwo(b, y, TextOf);
    ConcatOfTwo(b, y, CallsOf);
    TypesOfTwo(a, y);
    TypesOfTwo(b, y);
    CollectOfTwo(AllCalls(a), AllCalls(y));
    CollectOfTwo(AllCalls(b), AllCalls(y));
  }

  lemma SameResponse(p: seq<Chunk>, q: seq<Chunk>)
    requires SpellTheSame(p, q)
    ensures Accepts(p) <==> Accepts(q)
    ensures forall r :: Answers(r, AllText(p), AllCalls(p)) <==> Answers(r, AllText(q), AllCalls(q))
  {
  }

  lemma BadContext(x: seq<Chunk>, a: seq<Chunk>, y: seq<Chunk>)
    requires !GoodChunks(x) || !GoodChunks(y)
    ensures !Accepts(x + a + y)
  {
    TypesOfTwo(x, a);
    TypesOfTwo(x + a, y);
  }

  /** However any stretch of a stream is split into fragments, the same streams are accepted with the same response. */
  lemma SplittingDoesNotMatter(x: seq<Chunk>, a: seq<Chunk>, b: seq<Chunk>, y: seq<Chunk>)
    requires SpellTheSame(a, b)
    ensures Accepts(x + a + y) <==> Accepts(x + b + y)
    ensures Accepts(x + a + y) ==> forall r ::
      Answers(r, AllText(x + a + y), AllCalls(x + a + y)) <==> Answers(r, AllText(x + b + y), AllCalls(x + b + y))
  {
    if GoodChunks(x) && GoodChunks(y) {
      assert SpellTheSame(x + a + y, x + b + y) by {
        SpellBefore(x, a, b);
        SpellAfter(x + a, x + b, y);
      }
      SameResponse(x + a + y, x + b + y);
    } else {
      BadContext(x, a, y);
      BadContext(x, b, y);
    }
  }
}
