/**
 * Properties of the accumulator over whole streams of chunks: what one call
 * preserves (state keys, append-only fields, tool-call order) and what a
 * sequence of calls adds up to (streamed text, content and arguments).
 */
module MessageStreams {
  import opened Wrappers
  import opened Values
  import opened MessageUtils

  /** Feeding chunks one by one to the accumulator: final state and emitted chunks. */
  function Replay(st: State, chunks: seq<Response>): (r: Result<(State, seq<Response>), Unsupported>)
    ensures r.Success? ==> |r.value.1| == |chunks|
    decreases |chunks|
  {
    if |chunks| == 0 then Success((st, []))
    else
      match Replay(st, chunks[..|chunks| - 1])
      case Failure(e) => Failure(e)
      case Success(p) =>
        match AccumulateChunk(chunks[|chunks| - 1], p.0)
        case Failure(e) => Failure(e)
        case Success(q) => Success((q.1, p.1 + [q.0]))
  }

  /** The concatenation of a sequence of fragments. */
  function Joined(fs: seq<string>): string
    decreases |fs|
  {
    if |fs| == 0 then "" else Joined(fs[..|fs| - 1]) + fs[|fs| - 1]
  }

  /** Replaying one more chunk is one more call of the accumulator. */
  lemma ReplaySnoc(st: State, chunks: seq<Response>, c: Response)
    requires Replay(st, chunks).Success?
    ensures var prev := Replay(st, chunks).value;
            Replay(st, chunks + [c]) ==
              match AccumulateChunk(c, prev.0)
              case Failure(e) => Failure(e)
              case Success(q) => Success((q.1, prev.1 + [q.0]))
  {
    assert (chunks + [c])[..|chunks|] == chunks;
  }

  /**
   * The accumulator is causal: the chunks emitted for a prefix of the
   * stream are the prefix of the chunks emitted for the whole stream.
   */
  lemma {:induction false} ReplayPrefix(st: State, chunks: seq<Response>, j: nat)
    requires j <= |chunks|
    requires Replay(st, chunks).Success?
    ensures Replay(st, chunks[..j]).Success?
    ensures Replay(st, chunks[..j]).value.1 == Replay(st, chunks).value.1[..j]
    decreases |chunks|
  {
    if j == |chunks| {
      assert chunks[..j] == chunks;
    } else {
      var n := |chunks| - 1;
      assert Replay(st, chunks[..n]).Success?;
      ReplayPrefix(st, chunks[..n], j);
      assert chunks[..n][..j] == chunks[..j];
    }
  }

  // ---------------------------------------------------------------------
  // One call: state keys
  // ---------------------------------------------------------------------

  lemma {:induction false} KeysOfPrefix(choices: seq<Choice>)
    requires |choices| > 0
    ensures KeysOf(choices) == KeysOf(choices[..|choices| - 1]) + {ChoiceKey(choices[|choices| - 1], |choices| - 1)}
  {
    var n := |choices| - 1;
    forall k | k in KeysOf(choices)
      ensures k in KeysOf(choices[..n]) + {ChoiceKey(choices[n], n)}
    {
      var p :| 0 <= p < |choices| && ChoiceKey(choices[p], p) == k;
      if p < n {
        assert choices[..n][p] == choices[p];
      }
    }
    forall k | k in KeysOf(choices[..n])
      ensures k in KeysOf(choices)
    {
      var p :| 0 <= p < n && ChoiceKey(choices[..n][p], p) == k;
      assert choices[..n][p] == choices[p];
    }
  }

  /**
   * The per-choice branch never removes a state entry, creates exactly the
   * entries for the keys of this chunk's choices, and leaves every other
   * entry as it was.
   */
  lemma {:induction false} ChoicesKeepOtherKeys(st: State, choices: seq<Choice>)
    ensures AccumulateChoices(st, choices).0.Keys == st.Keys + KeysOf(choices)
    ensures forall k :: k in st && k !in KeysOf(choices) ==> AccumulateChoices(st, choices).0[k] == st[k]
    decreases |choices|
  {
    if |choices| > 0 {
      var n := |choices| - 1;
      ChoicesKeepOtherKeys(st, choices[..n]);
      KeysOfPrefix(choices);
    }
  }

  /** The keys one chunk touches: 0 for a text chunk, else those of its choices. */
  function TouchedKeys(resp: Response): set<int> {
    if TextBranchApplies(resp) then {0}
    else if HasChoices(resp) then KeysOf(resp.output.value.choices.value)
    else {}
  }

  /** Entries are never removed, and entries for keys the chunk does not touch never change. */
  lemma ChunkKeepsOtherKeys(resp: Response, st: State)
    requires AccumulateChunk(resp, st).Success?
    ensures AccumulateChunk(resp, st).value.1.Keys == st.Keys + TouchedKeys(resp)
    ensures forall k :: k in st && k !in TouchedKeys(resp) ==> AccumulateChunk(resp, st).value.1[k] == st[k]
  {
    if !TextBranchApplies(resp) && HasChoices(resp) {
      ChoicesKeepOtherKeys(st, resp.output.value.choices.value);
    }
  }

  // ---------------------------------------------------------------------
  // One call: append-only fields
  // ---------------------------------------------------------------------

  /** `a` is a prefix of `b`. */
  predicate Extends<T(==)>(a: seq<T>, b: seq<T>) {
    |a| <= |b| && b[..|a|] == a
  }

  /** Every accumulated field that only grows, for one state entry. */
  predicate Grows(before: ChoiceState, after: ChoiceState) {
    Extends(before.reasoningContent, after.reasoningContent) &&
    Extends(before.logprobs, after.logprobs) &&
    |before.toolCalls| <= |after.toolCalls|
  }

  lemma ChoiceGrows(cs: ChoiceState, c: Choice)
    ensures Grows(cs, AccumulateChoice(cs, c).0)
  {
    var r := AccumulateChoice(cs, c).0;
    if c.message.Some? {
      assert r.reasoningContent[..|cs.reasoningContent|] == cs.reasoningContent;
    }
    if HasLogprobEntries(c.logprobs) {
      assert r.logprobs[..|cs.logprobs|] == cs.logprobs;
    }
  }

  /** Reasoning, log-probabilities and the number of tool calls only grow, choice by choice. */
  lemma {:induction false} ChoicesGrow(st: State, choices: seq<Choice>)
    ensures forall k :: k in st ==> k in AccumulateChoices(st, choices).0 && Grows(st[k], AccumulateChoices(st, choices).0[k])
    decreases |choices|
  {
    if |choices| > 0 {
      var n := |choices| - 1;
      var before := AccumulateChoices(st, choices[..n]);
      ChoicesGrow(st, choices[..n]);
      var key := ChoiceKey(choices[n], n);
      ChoiceGrows(StateOf(before.0, key), choices[n]);
      forall k | k in st
        ensures Grows(st[k], AccumulateChoices(st, choices).0[k])
      {
        if k == key {
          GrowsTransitive(st[k], before.0[k], AccumulateChoice(StateOf(before.0, key), choices[n]).0);
        }
      }
    }
  }

  lemma GrowsTransitive(a: ChoiceState, b: ChoiceState, c: ChoiceState)
    requires Grows(a, b) && Grows(b, c)
    ensures Grows(a, c)
  {
    assert c.reasoningContent[..|a.reasoningContent|] == b.reasoningContent[..|b.reasoningContent|][..|a.reasoningContent|];
    assert c.logprobs[..|a.logprobs|] == b.logprobs[..|b.logprobs|][..|a.logprobs|];
  }

  /** One chunk only appends to reasoning and log-probabilities and never drops a tool call. */
  lemma ChunkOnlyAppends(resp: Response, st: State)
    requires AccumulateChunk(resp, st).Success?
    ensures forall k :: k in st ==> k in AccumulateChunk(resp, st).value.1 && Grows(st[k], AccumulateChunk(resp, st).value.1[k])
  {
    ChunkKeepsOtherKeys(resp, st);
    if !TextBranchApplies(resp) && HasChoices(resp) {
      ChoicesGrow(st, resp.output.value.choices.value);
    }
  }

  // ---------------------------------------------------------------------
  // Tool calls: distinct indices in first-appearance order
  // ---------------------------------------------------------------------

  /** The indices of the accumulated calls, in order. */
  function Indices(calls: seq<ToolCall>): (r: seq<Option<int>>)
    ensures |r| == |calls| && forall j :: 0 <= j < |calls| ==> r[j] == calls[j].index
  {
    seq(|calls|, j requires 0 <= j < |calls| => calls[j].index)
  }

  /**
   * A reference definition of the accumulated order: the known indices, then
   * each indexed dict entry whose index has not been seen yet.
   */
  function FirstAppearances(known: seq<Option<int>>, items: seq<ToolCallItem>): seq<Option<int>>
    decreases |items|
  {
    if |items| == 0 then known
    else
      var prev := FirstAppearances(known, items[..|items| - 1]);
      var item := items[|items| - 1];
      if item.CallDict? && item.call.index.Some? && item.call.index !in prev then prev + [item.call.index]
      else prev
  }

  lemma FindCallNoneIff(acc: seq<ToolCall>, idx: int)
    ensures FindCall(acc, idx).None? <==> Some(idx) !in Indices(acc)
  {
    if FindCall(acc, idx).Some? {
      assert Indices(acc)[FindCall(acc, idx).value] == Some(idx);
    }
  }

  /** Accumulating tool calls keeps exactly the first-appearance order of their indices. */
  lemma {:induction false} ToolCallOrder(acc: seq<ToolCall>, items: seq<ToolCallItem>)
    ensures Indices(AccumulateToolCalls(acc, items)) == FirstAppearances(Indices(acc), items)
    decreases |items|
  {
    if |items| > 0 {
      var n := |items| - 1;
      var prev := AccumulateToolCalls(acc, items[..n]);
      ToolCallOrder(acc, items[..n]);
      var item := items[n];
      if item.CallDict? && item.call.index.Some? {
        FindCallNoneIff(prev, item.call.index.value);
        var r := AccumulateToolCall(prev, item);
        if FindCall(prev, item.call.index.value).None? {
          assert Indices(r) == Indices(prev) + [item.call.index];
        } else {
          assert Indices(r) == Indices(prev);
        }
      }
    }
  }

  predicate AllSome(xs: seq<Option<int>>) {
    forall j :: 0 <= j < |xs| ==> xs[j].Some?
  }

  predicate Distinct<T(==)>(xs: seq<T>) {
    forall i, j :: 0 <= i < j < |xs| ==> xs[i] != xs[j]
  }

  lemma {:induction false} FirstAppearancesDistinct(known: seq<Option<int>>, items: seq<ToolCallItem>)
    requires AllSome(known) && Distinct(known)
    ensures AllSome(FirstAppearances(known, items)) && Distinct(FirstAppearances(known, items))
    decreases |items|
  {
    if |items| > 0 {
      FirstAppearancesDistinct(known, items[..|items| - 1]);
    }
  }

  /**
   * Every accumulated call has an index and no two share one: an invariant
   * of the per-choice tool-call list.
   */
  lemma ToolCallsStayDistinct(acc: seq<ToolCall>, items: seq<ToolCallItem>)
    requires AllSome(Indices(acc)) && Distinct(Indices(acc))
    ensures AllSome(Indices(AccumulateToolCalls(acc, items))) && Distinct(Indices(AccumulateToolCalls(acc, items)))
  {
    ToolCallOrder(acc, items);
    FirstAppearancesDistinct(Indices(acc), items);
  }

  /** Accumulating tool-call entries in two lists is accumulating them in one. */
  lemma {:induction false} ToolCallsAppend(acc: seq<ToolCall>, a: seq<ToolCallItem>, b: seq<ToolCallItem>)
    ensures AccumulateToolCalls(acc, a + b) == AccumulateToolCalls(AccumulateToolCalls(acc, a), b)
    decreases |b|
  {
    if |b| == 0 {
      assert a + b == a;
    } else {
      assert (a + b)[..|a + b| - 1] == a + b[..|b| - 1];
      ToolCallsAppend(acc, a, b[..|b| - 1]);
    }
  }

  // ---------------------------------------------------------------------
  // Whole streams
  // ---------------------------------------------------------------------

  /** A plain-text chunk: `output.text` and no choices. */
  function TextChunk(t: string): Response {
    Response(Some(Output(Some(t), None, map[])), map[])
  }

  function TextChunks(fs: seq<string>): (r: seq<Response>)
    ensures |r| == |fs| && forall i :: 0 <= i < |fs| ==> r[i] == TextChunk(fs[i])
  {
    seq(|fs|, i requires 0 <= i < |fs| => TextChunk(fs[i]))
  }

  /** What the i-th text chunk is rewritten to: the text so far, unless its fragment is empty. */
  function TextSoFar(start: string, fs: seq<string>, i: nat): Response
    requires i < |fs|
  {
    TextChunk(if fs[i] == "" then "" else start + Joined(fs[..i + 1]))
  }

  /** A chunk with a single choice touches the state of that choice's key only. */
  lemma OneChoice(st: State, c: Choice)
    ensures var key := ChoiceKey(c, 0);
            var step := AccumulateChoice(StateOf(st, key), c);
            AccumulateChoices(st, [c]) == (st[key := step.0], [step.1])
  {
    var cs := [c];
    assert cs[..0] == [];
    assert cs[0] == c;
    assert AccumulateChoices(st, cs[..0]) == (st, []);
    var step := AccumulateChoice(StateOf(st, ChoiceKey(c, 0)), c);
    assert AccumulateChoices(st, cs) == (st[ChoiceKey(c, 0) := step.0], [] + [step.1]);
    assert [] + [step.1] == [step.1];
  }

  /** A `tool_calls` list of one entry is one step of the fold. */
  lemma OneCall(acc: seq<ToolCall>, item: ToolCallItem)
    ensures AccumulateToolCalls(acc, [item]) == AccumulateToolCall(acc, item)
  {
    assert [item][..0] == [];
    assert AccumulateToolCalls(acc, []) == acc;
  }

  lemma TextChunkStep(st: State, t: string)
    requires StateOf(st, 0).content.AccText?
    ensures var s := StateOf(st, 0).content.s;
            AccumulateChunk(TextChunk(t), st) ==
              Success((TextChunk(if t == "" then "" else s + t),
                       if t == "" then st else st[0 := StateOf(st, 0).(content := AccText(s + t))]))
  {
  }

  /** Replaying one more text chunk, in terms of the text accumulated so far. */
  lemma TextReplaySnoc(st: State, fs: seq<string>)
    requires |fs| > 0
    requires Replay(st, TextChunks(fs[..|fs| - 1])).Success?
    requires StateOf(Replay(st, TextChunks(fs[..|fs| - 1])).value.0, 0).content.AccText?
    ensures var prev := Replay(st, TextChunks(fs[..|fs| - 1])).value;
            var cs := StateOf(prev.0, 0);
            var t := fs[|fs| - 1];
            Replay(st, TextChunks(fs)) ==
              Success((if t == "" then prev.0 else prev.0[0 := cs.(content := AccText(cs.content.s + t))],
                       prev.1 + [TextChunk(if t == "" then "" else cs.content.s + t)]))
  {
    var n := |fs| - 1;
    assert TextChunks(fs) == TextChunks(fs[..n]) + [TextChunk(fs[n])];
    ReplaySnoc(st, TextChunks(fs[..n]), TextChunk(fs[n]));
    TextChunkStep(Replay(st, TextChunks(fs[..n])).value.0, fs[n]);
  }

  /** The text so far, one fragment at a time. */
  lemma JoinedSnoc(start: string, fs: seq<string>)
    requires |fs| > 0
    ensures start + Joined(fs) == start + Joined(fs[..|fs| - 1]) + fs[|fs| - 1]
  {
  }

  /**
   * A plain-text stream accumulates like choice 0's string content: the
   * state ends with all fragments joined onto what it held before.
   */
  lemma {:induction false} TextStream(st: State, fs: seq<string>)
    requires StateOf(st, 0).content.AccText?
    ensures Replay(st, TextChunks(fs)).Success?
    ensures StateOf(Replay(st, TextChunks(fs)).value.0, 0).content == AccText(StateOf(st, 0).content.s + Joined(fs))
    decreases |fs|
  {
    var start := StateOf(st, 0).content.s;
    if |fs| == 0 {
      assert TextChunks(fs) == [];
      assert start + Joined(fs) == start;
    } else {
      TextStream(st, fs[..|fs| - 1]);
      TextReplaySnoc(st, fs);
      JoinedSnoc(start, fs);
    }
  }

  lemma TextChunksPrefix(fs: seq<string>, j: nat)
    requires j <= |fs|
    ensures TextChunks(fs)[..j] == TextChunks(fs[..j])
  {
  }

  /** The chunk emitted for the last fragment carries the text so far. */
  lemma TextLastEmitted(st: State, fs: seq<string>)
    requires StateOf(st, 0).content.AccText?
    requires |fs| > 0
    ensures Replay(st, TextChunks(fs)).Success?
    ensures Replay(st, TextChunks(fs)).value.1[|fs| - 1] == TextSoFar(StateOf(st, 0).content.s, fs, |fs| - 1)
  {
    TextStream(st, fs[..|fs| - 1]);
    TextReplaySnoc(st, fs);
    JoinedSnoc(StateOf(st, 0).content.s, fs);
    assert fs[..|fs|] == fs;
  }

  /**
   * Every chunk with a non-empty fragment is rewritten to carry the text so
   * far; a chunk whose fragment is empty passes through untouched.
   */
  lemma TextEmitted(st: State, fs: seq<string>, i: nat)
    requires StateOf(st, 0).content.AccText?
    requires i < |fs|
    ensures Replay(st, TextChunks(fs)).Success?
    ensures Replay(st, TextChunks(fs)).value.1[i] == TextSoFar(StateOf(st, 0).content.s, fs, i)
  {
    TextStream(st, fs);
    TextLastEmitted(st, fs[..i + 1]);
    TextChunksPrefix(fs, i + 1);
    ReplayPrefix(st, TextChunks(fs), i + 1);
    assert fs[..i + 1][..i + 1] == fs[..i + 1];
  }

  /** The example of the source's comments: "Hel" then "lo" make "Hello". */
  lemma HelloStream()
    ensures var r := Replay(map[], TextChunks(["Hel", "lo"]));
            r.Success? && r.value.1[1] == TextChunk("Hello") && r.value.0[0].content == AccText("Hello")
  {
    var fs := ["Hel", "lo"];
    TextStream(map[], fs);
    TextLastEmitted(map[], fs);
    assert fs[..1] == ["Hel"] && fs[..2] == fs;
    assert Joined(fs) == "Hello";
  }

  /** A chunk with one choice of index `k` whose message carries only `content`. */
  function ContentChunk(k: int, f: string): Response {
    Response(Some(Output(None, Some([Choice(Some(k), Some(Message(Some(Text(f)), None, None, map[])), None, map[])]), map[])), map[])
  }

  function ContentChunks(k: int, fs: seq<string>): (r: seq<Response>)
    ensures |r| == |fs| && forall i :: 0 <= i < |fs| ==> r[i] == ContentChunk(k, fs[i])
  {
    seq(|fs|, i requires 0 <= i < |fs| => ContentChunk(k, fs[i]))
  }

  function ContentSoFar(k: int, start: string, fs: seq<string>, i: nat): Response
    requires i < |fs|
  {
    ContentChunk(k, if fs[i] == "" then "" else start + Joined(fs[..i + 1]))
  }

  lemma ContentChunkStep(st: State, k: int, f: string)
    requires StateOf(st, k).content.AccText?
    ensures var cs := StateOf(st, k);
            AccumulateChunk(ContentChunk(k, f), st) ==
              Success((ContentChunk(k, if f == "" then "" else cs.content.s + f),
                       st[k := if f == "" then cs else cs.(content := AccText(cs.content.s + f))]))
  {
    var c := Choice(Some(k), Some(Message(Some(Text(f)), None, None, map[])), None, map[]);
    OneChoice(st, c);
  }

  lemma ContentReplaySnoc(st: State, k: int, fs: seq<string>)
    requires |fs| > 0
    requires Replay(st, ContentChunks(k, fs[..|fs| - 1])).Success?
    requires StateOf(Replay(st, ContentChunks(k, fs[..|fs| - 1])).value.0, k).content.AccText?
    ensures var prev := Replay(st, ContentChunks(k, fs[..|fs| - 1])).value;
            var cs := StateOf(prev.0, k);
            var f := fs[|fs| - 1];
            Replay(st, ContentChunks(k, fs)) ==
              Success((prev.0[k := if f == "" then cs else cs.(content := AccText(cs.content.s + f))],
                       prev.1 + [ContentChunk(k, if f == "" then "" else cs.content.s + f)]))
  {
    var n := |fs| - 1;
    assert ContentChunks(k, fs) == ContentChunks(k, fs[..n]) + [ContentChunk(k, fs[n])];
    ReplaySnoc(st, ContentChunks(k, fs[..n]), ContentChunk(k, fs[n]));
    ContentChunkStep(Replay(st, ContentChunks(k, fs[..n])).value.0, k, fs[n]);
  }

  /**
   * Monotonic content: a stream of string fragments for choice k leaves the
   * concatenation of all of them in that choice's accumulator.
   */
  lemma {:induction false} ContentStream(st: State, k: int, fs: seq<string>)
    requires StateOf(st, k).content.AccText?
    ensures Replay(st, ContentChunks(k, fs)).Success?
    ensures StateOf(Replay(st, ContentChunks(k, fs)).value.0, k).content == AccText(StateOf(st, k).content.s + Joined(fs))
    decreases |fs|
  {
    var start := StateOf(st, k).content.s;
    if |fs| == 0 {
      assert ContentChunks(k, fs) == [];
      assert start + Joined(fs) == start;
    } else {
      ContentStream(st, k, fs[..|fs| - 1]);
      ContentReplaySnoc(st, k, fs);
      JoinedSnoc(start, fs);
    }
  }

  lemma ContentChunksPrefix(k: int, fs: seq<string>, j: nat)
    requires j <= |fs|
    ensures ContentChunks(k, fs)[..j] == ContentChunks(k, fs[..j])
  {
  }

  lemma ContentLastEmitted(st: State, k: int, fs: seq<string>)
    requires StateOf(st, k).content.AccText?
    requires |fs| > 0
    ensures Replay(st, ContentChunks(k, fs)).Success?
    ensures Replay(st, ContentChunks(k, fs)).value.1[|fs| - 1] == ContentSoFar(k, StateOf(st, k).content.s, fs, |fs| - 1)
  {
    ContentStream(st, k, fs[..|fs| - 1]);
    ContentReplaySnoc(st, k, fs);
    JoinedSnoc(StateOf(st, k).content.s, fs);
    assert fs[..|fs|] == fs;
  }

  /**
   * After chunk i the emitted content of choice k is the concatenation of
   * the fragments so far; a chunk with an empty fragment passes through
   * with its empty content.
   */
  lemma ContentEmitted(st: State, k: int, fs: seq<string>, i: nat)
    requires StateOf(st, k).content.AccText?
    requires i < |fs|
    ensures Replay(st, ContentChunks(k, fs)).Success?
    ensures Replay(st, ContentChunks(k, fs)).value.1[i] == ContentSoFar(k, StateOf(st, k).content.s, fs, i)
  {
    ContentStream(st, k, fs);
    ContentLastEmitted(st, k, fs[..i + 1]);
    ContentChunksPrefix(k, fs, i + 1);
    ReplayPrefix(st, ContentChunks(k, fs), i + 1);
    assert fs[..i + 1][..i + 1] == fs[..i + 1];
  }

  /** A chunk for choice 0 carrying one `arguments` fragment for tool call 0. */
  function ArgumentsChunk(f: string): Response {
    var call := ToolCall(Some(0), Some(FunctionCall(None, Some(f), map[])), map[]);
    Response(Some(Output(None, Some([Choice(Some(0), Some(Message(None, None, Some([CallDict(call)]), map[])), None, map[])]), map[])), map[])
  }

  function ArgumentsChunks(fs: seq<string>): (r: seq<Response>)
    ensures |r| == |fs| && forall i :: 0 <= i < |fs| ==> r[i] == ArgumentsChunk(fs[i])
  {
    seq(|fs|, i requires 0 <= i < |fs| => ArgumentsChunk(fs[i]))
  }

  /** The single call a stream of argument fragments accumulates to. */
  function CallWithArguments(args: string): ToolCall {
    ToolCall(Some(0), Some(FunctionCall(None, Some(args), map[])), map[])
  }

  /** The `tool_calls` the first choice of a chunk carries, if any. */
  function EmittedCalls(resp: Response): Option<seq<ToolCallItem>> {
    if resp.output.Some? && resp.output.value.choices.Some? && |resp.output.value.choices.value| > 0 &&
       resp.output.value.choices.value[0].message.Some?
    then resp.output.value.choices.value[0].message.value.toolCalls
    else None
  }

  lemma ArgumentsChunkStep(st: State, previous: Option<string>, f: string)
    requires previous.None? ==> StateOf(st, 0).toolCalls == []
    requires previous.Some? ==> StateOf(st, 0).toolCalls == [CallWithArguments(previous.value)]
    ensures var r := AccumulateChunk(ArgumentsChunk(f), st);
            var args := previous.GetOr("") + f;
            r.Success? && 0 in r.value.1 &&
            r.value.1[0].toolCalls == [CallWithArguments(args)] &&
            EmittedCalls(r.value.0) == Some([CallDict(CallWithArguments(args))])
  {
    var cs := StateOf(st, 0);
    var fragment := ToolCall(Some(0), Some(FunctionCall(None, Some(f), map[])), map[]);
    var message := Message(None, None, Some([CallDict(fragment)]), map[]);
    var c := Choice(Some(0), Some(message), None, map[]);
    OneChoice(st, c);
    OneCall(cs.toolCalls, CallDict(fragment));
    var calls := AccumulateToolCalls(cs.toolCalls, [CallDict(fragment)]);
    assert TruthyEntries(map[]) == map[];
    if previous.None? {
      assert FindCall([], 0).None?;
      assert calls == [fragment];
      assert "" + f == f;
    } else {
      assert FindCall(cs.toolCalls, 0) == Some(0);
      var merged := MergeCall(cs.toolCalls[0], fragment);
      assert merged == CallWithArguments(previous.value + f);
      assert calls == [merged];
    }
    var args := previous.GetOr("") + f;
    assert calls == [CallWithArguments(args)];
    var m := AccumulateMessage(cs, message);
    assert m.0.toolCalls == calls;
    assert m.1.toolCalls == Some(AsItems(calls));
    assert AsItems(calls) == [CallDict(CallWithArguments(args))];
    var step := AccumulateChoice(cs, c);
    assert step.0.toolCalls == calls;
    assert step.1.message == Some(m.1);
    assert ArgumentsChunk(f).output.value.choices.value == [c];
    var r := AccumulateChunk(ArgumentsChunk(f), st);
    assert r.value.1 == st[0 := step.0];
    assert r.value.0.output.value.choices.value == [step.1];
  }

  lemma ArgumentsReplaySnoc(fs: seq<string>, previous: Option<string>)
    requires |fs| > 0
    requires Replay(map[], ArgumentsChunks(fs[..|fs| - 1])).Success?
    requires var cs := StateOf(Replay(map[], ArgumentsChunks(fs[..|fs| - 1])).value.0, 0);
             (previous.None? ==> cs.toolCalls == []) &&
             (previous.Some? ==> cs.toolCalls == [CallWithArguments(previous.value)])
    ensures var r := Replay(map[], ArgumentsChunks(fs));
            var args := previous.GetOr("") + fs[|fs| - 1];
            r.Success? && 0 in r.value.0 &&
            r.value.0[0].toolCalls == [CallWithArguments(args)] &&
            EmittedCalls(r.value.1[|fs| - 1]) == Some([CallDict(CallWithArguments(args))])
  {
    var n := |fs| - 1;
    assert ArgumentsChunks(fs) == ArgumentsChunks(fs[..n]) + [ArgumentsChunk(fs[n])];
    ReplaySnoc(map[], ArgumentsChunks(fs[..n]), ArgumentsChunk(fs[n]));
    ArgumentsChunkStep(Replay(map[], ArgumentsChunks(fs[..n])).value.0, previous, fs[n]);
  }

  /**
   * Tool-call argument streaming: the first fragment creates call 0 and the
   * later ones are concatenated onto its arguments.
   */
  lemma {:induction false} ArgumentsStream(fs: seq<string>)
    requires |fs| > 0
    ensures Replay(map[], ArgumentsChunks(fs)).Success?
    ensures 0 in Replay(map[], ArgumentsChunks(fs)).value.0
    ensures Replay(map[], ArgumentsChunks(fs)).value.0[0].toolCalls == [CallWithArguments(Joined(fs))]
    ensures EmittedCalls(Replay(map[], ArgumentsChunks(fs)).value.1[|fs| - 1]) == Some([CallDict(CallWithArguments(Joined(fs)))])
    decreases |fs|
  {
    var n := |fs| - 1;
    JoinedSnoc("", fs);
    if n == 0 {
      assert ArgumentsChunks(fs[..0]) == [];
      assert Joined(fs[..0]) == "";
      ArgumentsReplaySnoc(fs, None);
    } else {
      ArgumentsStream(fs[..n]);
      ArgumentsReplaySnoc(fs, Some(Joined(fs[..n])));
    }
  }

  lemma ArgumentsChunksPrefix(fs: seq<string>, j: nat)
    requires j <= |fs|
    ensures ArgumentsChunks(fs)[..j] == ArgumentsChunks(fs[..j])
  {
  }

  /** Every chunk carries the arguments received so far. */
  lemma ArgumentsEmitted(fs: seq<string>, i: nat)
    requires i < |fs|
    ensures Replay(map[], ArgumentsChunks(fs)).Success?
    ensures EmittedCalls(Replay(map[], ArgumentsChunks(fs)).value.1[i]) == Some([CallDict(CallWithArguments(Joined(fs[..i + 1])))])
  {
    ArgumentsStream(fs);
    ArgumentsStream(fs[..i + 1]);
    ArgumentsChunksPrefix(fs, i + 1);
    ReplayPrefix(map[], ArgumentsChunks(fs), i + 1);
  }

  /** The example of a JSON object streamed in two pieces. */
  lemma ArgumentsExample()
    ensures var r := Replay(map[], ArgumentsChunks(["{\"a\":", "1}"]));
            r.Success? && r.value.0[0].toolCalls == [CallWithArguments("{\"a\":1}")]
  {
    var fs := ["{\"a\":", "1}"];
    ArgumentsStream(fs);
    assert fs[..1] == ["{\"a\":"];
    assert Joined(fs) == "{\"a\":1}";
  }
}
