/**
 * The streaming-chunk accumulator `merge_single_response`
 * (dashscope/utils/message_utils.py).
 *
 * A stream delivers partial responses one at a time. For every chunk the
 * accumulator updates a per-stream map from choice index to accumulated
 * state and rewrites the chunk so that it carries everything received so far
 * (text, content, reasoning, tool calls, log-probabilities), not only the
 * latest delta.
 *
 * The source mutates both of its arguments in place. Here the chunk and the
 * state are values: each operation takes the old ones and returns the new
 * ones. The `Accumulate*` functions say what one step computes; the methods
 * below them run the source's loops and are proved to compute exactly that.
 */
module MessageUtils {
  import opened Wrappers
  import opened Values

  // ---------------------------------------------------------------------
  // The parsed chunk. Every optional field of the source is an Option;
  // `None` stands for "key absent" and, where the source treats the two
  // alike, for JSON null. `others` holds the keys the merge never reads.
  // ---------------------------------------------------------------------

  /** One element of a multimodal content list. */
  datatype ContentItem =
    | DictItem(text: Option<string>, others: map<string, Value>)  // a dict; `text` is its 'text' key
    | OtherItem(value: Value)                                      // anything that is not a dict

  /** `message.content`: a plain string or a list of parts. */
  datatype Content = Text(s: string) | Parts(items: seq<ContentItem>)

  /** The `function` dict of a tool call. */
  datatype FunctionCall = FunctionCall(name: Option<string>, arguments: Option<string>, others: map<string, Value>)

  /** A tool-call dict; `index` is the call's position among parallel calls. */
  datatype ToolCall = ToolCall(index: Option<int>, func: Option<FunctionCall>, others: map<string, Value>)

  /** One entry of `message.tool_calls`, which need not be a dict. */
  datatype ToolCallItem = CallDict(call: ToolCall) | CallOther(value: Value)

  datatype Message = Message(
    content: Option<Content>,
    reasoningContent: Option<string>,  // `None` only when the key is absent; see ReasoningField
    toolCalls: Option<seq<ToolCallItem>>,
    others: map<string, Value>)

  datatype Choice = Choice(
    index: Option<int>,
    message: Option<Message>,
    logprobs: Option<Value>,
    others: map<string, Value>)

  datatype Output = Output(text: Option<string>, choices: Option<seq<Choice>>, others: map<string, Value>)

  datatype Response = Response(output: Option<Output>, others: map<string, Value>)

  predicate ContentTruthy(c: Content) {
    match c
    case Text(s) => s != ""
    case Parts(items) => |items| > 0
  }

  /** Truth value of a `function` dict: it has at least one key. */
  predicate FunctionTruthy(f: FunctionCall) {
    f.name.Some? || f.arguments.Some? || |f.others| > 0
  }

  // ---------------------------------------------------------------------
  // The accumulator state kept per choice index.
  // ---------------------------------------------------------------------

  /** Accumulated content is a string or a list of `{text: ...}` parts. */
  datatype AccContent = AccText(s: string) | AccParts(texts: seq<string>)

  datatype ChoiceState = ChoiceState(
    content: AccContent,
    reasoningContent: string,
    toolCalls: seq<ToolCall>,
    logprobs: seq<Value>)     // the list under logprobs['content']

  type State = map<int, ChoiceState>

  /** The entry created for a choice index seen for the first time. */
  const FreshChoiceState: ChoiceState := ChoiceState(AccText(""), "", [], [])

  /** The state of `key`, created fresh when the key is new. */
  function StateOf(st: State, key: int): (cs: ChoiceState)
    ensures key in st ==> cs == st[key]
    ensures key !in st ==> cs == FreshChoiceState
  {
    if key in st then st[key] else FreshChoiceState
  }

  /** The state key of a choice: its own index, else its position in the chunk. */
  function ChoiceKey(c: Choice, position: nat): (key: int)
    ensures c.index.Some? ==> key == c.index.value
    ensures c.index.None? ==> key == position
  {
    match c.index
    case Some(i) => i
    case None => position
  }

  // ---------------------------------------------------------------------
  // Content
  // ---------------------------------------------------------------------

  function Max(a: nat, b: nat): nat { if a < b then b else a }

  /** The text fragment item `i` contributes: '' unless it is a dict with a 'text'. */
  function FragmentAt(items: seq<ContentItem>, i: nat): string {
    if i < |items| && items[i].DictItem? && items[i].text.Some? then items[i].text.value else ""
  }

  /**
   * Merging a list of parts into the accumulated parts: the list grows to the
   * longer of the two lengths, every position gains the fragment the incoming
   * item at that position carries, and every incoming item that carried a
   * non-empty fragment has its text replaced by the accumulated text there.
   */
  function AccumulateParts(acc: seq<string>, items: seq<ContentItem>): (r: (seq<string>, seq<ContentItem>))
    ensures |r.0| == Max(|acc|, |items|) && |r.1| == |items|
    ensures forall i :: 0 <= i < |acc| ==> r.0[i] == acc[i] + FragmentAt(items, i)
    ensures forall i :: |acc| <= i < |r.0| ==> r.0[i] == FragmentAt(items, i)
    ensures forall i :: 0 <= i < |items| && FragmentAt(items, i) != "" ==>
              r.1[i] == items[i].(text := Some(r.0[i]))
    ensures forall i :: 0 <= i < |items| && FragmentAt(items, i) == "" ==> r.1[i] == items[i]
  {
    var n := Max(|acc|, |items|);
    var merged := seq(n, i requires 0 <= i < n => (if i < |acc| then acc[i] else "") + FragmentAt(items, i));
    var out := seq(|items|, i requires 0 <= i < |items| =>
      if FragmentAt(items, i) != "" then items[i].(text := Some(merged[i])) else items[i]);
    (merged, out)
  }

  /**
   * One `content` fragment. An empty or absent one changes nothing. A string
   * appends to the accumulated string, resetting a list accumulator to ''
   * first, and the outgoing content becomes the whole accumulated string. A
   * list resets a string accumulator to [] and merges part by part.
   */
  function AccumulateContent(acc: AccContent, c: Option<Content>): (r: (AccContent, Option<Content>))
    ensures c.None? || !ContentTruthy(c.value) ==> r == (acc, c)
    ensures c.Some? && c.value.Text? && c.value.s != "" ==>
              var s := (if acc.AccText? then acc.s else "") + c.value.s;
              r == (AccText(s), Some(Text(s)))
    ensures c.Some? && c.value.Parts? && |c.value.items| > 0 ==>
              var p := AccumulateParts(if acc.AccParts? then acc.texts else [], c.value.items);
              r == (AccParts(p.0), Some(Parts(p.1)))
  {
    match c
    case None => (acc, c)
    case Some(Text(s)) =>
      if s == "" then (acc, c)
      else
        var previous := if acc.AccParts? then "" else acc.s;
        (AccText(previous + s), Some(Text(previous + s)))
    case Some(Parts(items)) =>
      if |items| == 0 then (acc, c)
      else
        var previous := if acc.AccText? then [] else acc.texts;
        var p := AccumulateParts(previous, items);
        (AccParts(p.0), Some(Parts(p.1)))
  }

  /**
   * One `reasoning_content` fragment. When the key is present the fragment is
   * appended and the outgoing value is the whole accumulated reasoning, even
   * for an empty fragment; when it is absent nothing changes.
   */
  function AccumulateReasoning(acc: string, fragment: Option<string>): (r: (string, Option<string>))
    ensures fragment.None? ==> r == (acc, None)
    ensures fragment.Some? ==> r.0 == acc + fragment.value && r.1 == Some(r.0)
  {
    match fragment
    case None => (acc, None)
    case Some(f) => (acc + f, Some(acc + f))
  }

  /**
   * How a `reasoning_content` key of the parsed message becomes the model's
   * field. An absent key is `None`. A present falsy value (null, '', 0, ...)
   * appends nothing but is still present, so it is `Some("")`. A truthy
   * non-string raises, as `str += value` does.
   */
  function ReasoningField(field: Option<Value>): (r: Result<Option<string>, Exc>)
    ensures field.None? ==> r == Success(None)
    ensures field.Some? && !Truthy(field.value) ==> r == Success(Some(""))
    ensures field.Some? && field.value.Str? ==> r == Success(Some(field.value.s))
    ensures r.Failure? <==> field.Some? && Truthy(field.value) && !field.value.Str?
  {
    match field
    case None => Success(None)
    case Some(v) =>
      if !Truthy(v) then Success(Some(""))
      else if v.Str? then Success(Some(v.s))
      else Failure(TypeError)
  }

  /**
   * A present `reasoning_content` that does not raise always rewrites the
   * outgoing value to the whole accumulated reasoning; a falsy one, null
   * included, appends nothing.
   */
  lemma PresentReasoningRewrites(acc: string, v: Value)
    requires ReasoningField(Some(v)).Success?
    ensures var r := AccumulateReasoning(acc, ReasoningField(Some(v)).value);
            r.1 == Some(r.0) &&
            (!Truthy(v) ==> r.0 == acc) &&
            (v.Str? ==> r.0 == acc + v.s)
  {
  }

  // ---------------------------------------------------------------------
  // Tool calls
  // ---------------------------------------------------------------------

  /** The position of the first accumulated call whose index is `idx`. */
  function FindCall(acc: seq<ToolCall>, idx: int): (r: Option<nat>)
    ensures r.Some? ==> r.value < |acc| && acc[r.value].index == Some(idx)
    ensures r.Some? ==> forall j :: 0 <= j < r.value ==> acc[j].index != Some(idx)
    ensures r.None? ==> forall j :: 0 <= j < |acc| ==> acc[j].index != Some(idx)
    decreases |acc|
  {
    if |acc| == 0 then None
    else if acc[0].index == Some(idx) then Some(0)
    else
      match FindCall(acc[1..], idx)
      case Some(j) => Some(j + 1)
      case None => None
  }

  /** `existing += fragment`, starting from '' when the field was missing. */
  function Concat(existing: Option<string>, fragment: Option<string>): (r: Option<string>)
    ensures fragment.None? ==> r == existing
    ensures fragment.Some? ==> r == Some(existing.GetOr("") + fragment.value)
  {
    match fragment
    case None => existing
    case Some(f) => Some(existing.GetOr("") + f)
  }

  /**
   * Folding a `function` fragment into a stored one: name and arguments are
   * concatenated, every other truthy field overwrites the stored one.
   */
  function MergeFunction(existing: Option<FunctionCall>, fragment: FunctionCall): (r: FunctionCall)
    ensures r.name == Concat(if existing.Some? then existing.value.name else None, fragment.name)
    ensures r.arguments == Concat(if existing.Some? then existing.value.arguments else None, fragment.arguments)
    ensures forall k :: k in fragment.others && Truthy(fragment.others[k]) ==>
              k in r.others && r.others[k] == fragment.others[k]
    ensures existing.Some? ==> forall k :: k in existing.value.others && (k !in fragment.others || !Truthy(fragment.others[k])) ==>
              k in r.others && r.others[k] == existing.value.others[k]
    ensures forall k :: k in r.others ==> (existing.Some? && k in existing.value.others) || k in fragment.others
  {
    var stored := if existing.Some? then existing.value else FunctionCall(None, None, map[]);
    FunctionCall(Concat(stored.name, fragment.name), Concat(stored.arguments, fragment.arguments),
                 stored.others + TruthyEntries(fragment.others))
  }

  /**
   * Folding a tool-call fragment into the stored call with the same index:
   * a truthy `function` is merged by MergeFunction, every other truthy field
   * overwrites the stored one, falsy values never overwrite.
   */
  function MergeCall(existing: ToolCall, fragment: ToolCall): (r: ToolCall)
    ensures r.index == existing.index
    ensures fragment.func.Some? && FunctionTruthy(fragment.func.value) ==>
              r.func == Some(MergeFunction(existing.func, fragment.func.value))
    ensures fragment.func.None? || !FunctionTruthy(fragment.func.value) ==> r.func == existing.func
    ensures forall k :: k in fragment.others && Truthy(fragment.others[k]) ==>
              k in r.others && r.others[k] == fragment.others[k]
    ensures forall k :: k in existing.others && (k !in fragment.others || !Truthy(fragment.others[k])) ==>
              k in r.others && r.others[k] == existing.others[k]
    ensures forall k :: k in r.others ==> k in existing.others || k in fragment.others
  {
    var func := if fragment.func.Some? && FunctionTruthy(fragment.func.value)
                then Some(MergeFunction(existing.func, fragment.func.value))
                else existing.func;
    existing.(func := func, others := existing.others + TruthyEntries(fragment.others))
  }

  /**
   * One entry of `tool_calls`. An entry that is not a dict, or has no index,
   * is ignored; one whose index is already accumulated is merged into that
   * call; any other is appended as it is.
   */
  function AccumulateToolCall(acc: seq<ToolCall>, item: ToolCallItem): (r: seq<ToolCall>)
    ensures item.CallOther? || item.call.index.None? ==> r == acc
    ensures item.CallDict? && item.call.index.Some? && FindCall(acc, item.call.index.value).None? ==>
              r == acc + [item.call]
    ensures item.CallDict? && item.call.index.Some? && FindCall(acc, item.call.index.value).Some? ==>
              var j := FindCall(acc, item.call.index.value).value;
              |r| == |acc| && r[j] == MergeCall(acc[j], item.call) &&
              forall i :: 0 <= i < |acc| && i != j ==> r[i] == acc[i]
  {
    match item
    case CallOther(_) => acc
    case CallDict(call) =>
      if call.index.None? then acc
      else
        match FindCall(acc, call.index.value)
        case None => acc + [call]
        case Some(j) => acc[j := MergeCall(acc[j], call)]
  }

  /**
   * All entries of one `tool_calls` list, in order. No accumulated call is
   * dropped or re-indexed, and each entry adds at most one call.
   */
  function AccumulateToolCalls(acc: seq<ToolCall>, items: seq<ToolCallItem>): (r: seq<ToolCall>)
    ensures |acc| <= |r| <= |acc| + |items|
    ensures forall i :: 0 <= i < |acc| ==> r[i].index == acc[i].index
    decreases |items|
  {
    if |items| == 0 then acc
    else AccumulateToolCall(AccumulateToolCalls(acc, items[..|items| - 1]), items[|items| - 1])
  }

  /** The accumulated calls as the outgoing `tool_calls` list. */
  function AsItems(calls: seq<ToolCall>): (r: seq<ToolCallItem>)
    ensures |r| == |calls| && forall i :: 0 <= i < |calls| ==> r[i] == CallDict(calls[i])
  {
    seq(|calls|, i requires 0 <= i < |calls| => CallDict(calls[i]))
  }

  // ---------------------------------------------------------------------
  // Log-probabilities
  // ---------------------------------------------------------------------

  /** `choice.logprobs` is a dict whose 'content' is a non-empty list. */
  predicate HasLogprobEntries(lp: Option<Value>) {
    lp.Some? && lp.value.Obj? && "content" in lp.value.fields &&
    lp.value.fields["content"].Arr? && |lp.value.fields["content"].items| > 0
  }

  /**
   * Log-probabilities are append-only: well-formed entries extend the
   * accumulated list and the outgoing logprobs['content'] becomes that list;
   * anything else is skipped and changes nothing.
   */
  function AccumulateLogprobs(acc: seq<Value>, lp: Option<Value>): (r: (seq<Value>, Option<Value>))
    ensures !HasLogprobEntries(lp) ==> r == (acc, lp)
    ensures HasLogprobEntries(lp) ==>
              r.0 == acc + lp.value.fields["content"].items &&
              r.1 == Some(Obj(lp.value.fields["content" := Arr(r.0)]))
  {
    if HasLogprobEntries(lp) then
      var all := acc + lp.value.fields["content"].items;
      (all, Some(Obj(lp.value.fields["content" := Arr(all)])))
    else (acc, lp)
  }

  // ---------------------------------------------------------------------
  // One choice, all choices, one chunk
  // ---------------------------------------------------------------------

  /** The message of one choice: content, reasoning and tool calls in turn. */
  function AccumulateMessage(cs: ChoiceState, m: Message): (r: (ChoiceState, Message))
    ensures r.0.logprobs == cs.logprobs && r.1.others == m.others
    ensures (r.0.content, r.1.content) == AccumulateContent(cs.content, m.content)
    ensures (r.0.reasoningContent, r.1.reasoningContent) == AccumulateReasoning(cs.reasoningContent, m.reasoningContent)
    ensures m.toolCalls.None? || |m.toolCalls.value| == 0 ==>
              r.0.toolCalls == cs.toolCalls && r.1.toolCalls == m.toolCalls
    ensures m.toolCalls.Some? && |m.toolCalls.value| > 0 ==>
              r.0.toolCalls == AccumulateToolCalls(cs.toolCalls, m.toolCalls.value) &&
              r.1.toolCalls == Some(AsItems(r.0.toolCalls))
  {
    var content := AccumulateContent(cs.content, m.content);
    var reasoning := AccumulateReasoning(cs.reasoningContent, m.reasoningContent);
    var calls := if m.toolCalls.Some? && |m.toolCalls.value| > 0
                 then AccumulateToolCalls(cs.toolCalls, m.toolCalls.value) else cs.toolCalls;
    var outCalls := if m.toolCalls.Some? && |m.toolCalls.value| > 0 then Some(AsItems(calls)) else m.toolCalls;
    (cs.(content := content.0, reasoningContent := reasoning.0, toolCalls := calls),
     m.(content := content.1, reasoningContent := reasoning.1, toolCalls := outCalls))
  }

  /**
   * One choice: its message, if it has one, then its log-probabilities, which
   * are accumulated even when the choice has no message.
   */
  function AccumulateChoice(cs: ChoiceState, c: Choice): (r: (ChoiceState, Choice))
    ensures r.1.index == c.index && r.1.others == c.others
    ensures c.message.None? ==>
              r.1.message == None && r.0.content == cs.content &&
              r.0.reasoningContent == cs.reasoningContent && r.0.toolCalls == cs.toolCalls
    ensures c.message.Some? ==>
              var m := AccumulateMessage(cs, c.message.value);
              r.1.message == Some(m.1) && r.0.content == m.0.content &&
              r.0.reasoningContent == m.0.reasoningContent && r.0.toolCalls == m.0.toolCalls
    ensures (r.0.logprobs, r.1.logprobs) == AccumulateLogprobs(cs.logprobs, c.logprobs)
  {
    var withMessage := if c.message.Some? then AccumulateMessage(cs, c.message.value).0 else cs;
    var message := if c.message.Some? then Some(AccumulateMessage(cs, c.message.value).1) else None;
    var lp := AccumulateLogprobs(withMessage.logprobs, c.logprobs);
    (withMessage.(logprobs := lp.0), c.(message := message, logprobs := lp.1))
  }

  /** The state keys the choices of one chunk resolve to. */
  function KeysOf(choices: seq<Choice>): (keys: set<int>)
    ensures forall p :: 0 <= p < |choices| ==> ChoiceKey(choices[p], p) in keys
    ensures forall k :: k in keys ==> exists p :: 0 <= p < |choices| && ChoiceKey(choices[p], p) == k
  {
    set p | 0 <= p < |choices| :: ChoiceKey(choices[p], p)
  }

  /** The choices of one chunk, in order; each reads the state the previous left. */
  function AccumulateChoices(st: State, choices: seq<Choice>): (r: (State, seq<Choice>))
    ensures |r.1| == |choices|
    ensures forall p :: 0 <= p < |choices| ==> r.1[p].index == choices[p].index && r.1[p].others == choices[p].others
    ensures forall p :: 0 <= p < |choices| ==> ChoiceKey(choices[p], p) in r.0
    decreases |choices|
  {
    if |choices| == 0 then (st, [])
    else
      var n := |choices| - 1;
      var before := AccumulateChoices(st, choices[..n]);
      var key := ChoiceKey(choices[n], n);
      var step := AccumulateChoice(StateOf(before.0, key), choices[n]);
      (before.0[key := step.0], before.1 + [step.1])
  }

  /** Plain-text streams: `output.text` is non-empty and there are no choices. */
  predicate TextBranchApplies(resp: Response) {
    resp.output.Some? && resp.output.value.text.Some? && resp.output.value.text.value != "" &&
    (resp.output.value.choices.None? || |resp.output.value.choices.value| == 0)
  }

  predicate HasChoices(resp: Response) {
    resp.output.Some? && resp.output.value.choices.Some? && |resp.output.value.choices.value| > 0
  }

  /**
   * A text chunk reaching a list-shaped accumulator for choice 0, where the
   * source concatenates a string onto a list of parts.
   */
  datatype Unsupported = TextIntoParts

  /**
   * One chunk: the text branch, else the per-choice branch, else nothing.
   * The result is the rewritten chunk and the new state.
   */
  function AccumulateChunk(resp: Response, st: State): (r: Result<(Response, State), Unsupported>)
    ensures r.Failure? <==> TextBranchApplies(resp) && StateOf(st, 0).content.AccParts?
    // text branch: choice 0's string grows by the text, and the chunk carries all of it
    ensures r.Success? && TextBranchApplies(resp) ==>
              var text := StateOf(st, 0).content.s + resp.output.value.text.value;
              r.value.1 == st[0 := StateOf(st, 0).(content := AccText(text))] &&
              r.value.0 == resp.(output := Some(resp.output.value.(text := Some(text))))
    // per-choice branch
    ensures !TextBranchApplies(resp) && HasChoices(resp) ==>
              var m := AccumulateChoices(st, resp.output.value.choices.value);
              r == Success((resp.(output := Some(resp.output.value.(choices := Some(m.1)))), m.0))
    // neither: the chunk passes through
    ensures !TextBranchApplies(resp) && !HasChoices(resp) ==> r == Success((resp, st))
  {
    if TextBranchApplies(resp) then
      var cs := StateOf(st, 0);
      if cs.content.AccParts? then Failure(TextIntoParts)
      else
        var text := cs.content.s + resp.output.value.text.value;
        Success((resp.(output := Some(resp.output.value.(text := Some(text)))),
                 st[0 := cs.(content := AccText(text))]))
    else if HasChoices(resp) then
      var m := AccumulateChoices(st, resp.output.value.choices.value);
      Success((resp.(output := Some(resp.output.value.(choices := Some(m.1)))), m.0))
    else Success((resp, st))
  }

  // ---------------------------------------------------------------------
  // The source's loops
  // ---------------------------------------------------------------------

  /** The `while` loop that pads the accumulated parts with `{text: ''}`. */
  method PadParts(acc: seq<string>, n: nat) returns (padded: seq<string>)
    ensures |padded| == Max(|acc|, n)
    ensures padded[..|acc|] == acc
    ensures forall i :: |acc| <= i < |padded| ==> padded[i] == ""
  {
    padded := acc;
    while |padded| < n
      invariant |acc| <= |padded| <= Max(|acc|, n)
      invariant padded[..|acc|] == acc
      invariant forall i :: |acc| <= i < |padded| ==> padded[i] == ""
      decreases n - |padded|
    {
      padded := padded + [""];
    }
  }

  /**
   * Multimodal content: pad, then for each incoming dict item with a
   * non-empty 'text', append it at the same position and write the
   * accumulated text back into the item.
   */
  method MergeParts(acc: seq<string>, items: seq<ContentItem>) returns (merged: seq<string>, out: seq<ContentItem>)
    ensures (merged, out) == AccumulateParts(acc, items)
  {
    merged := PadParts(acc, |items|);
    out := items;
    for i := 0 to |items|
      invariant |merged| == Max(|acc|, |items|) && |out| == |items|
      invariant forall k :: 0 <= k < i ==> merged[k] == (if k < |acc| then acc[k] else "") + FragmentAt(items, k)
      invariant forall k :: i <= k < |merged| ==> merged[k] == if k < |acc| then acc[k] else ""
      invariant forall k :: 0 <= k < i ==>
                  out[k] == if FragmentAt(items, k) != "" then items[k].(text := Some(merged[k])) else items[k]
      invariant forall k :: i <= k < |items| ==> out[k] == items[k]
    {
      var item := items[i];
      if item.DictItem? && item.text.Some? && item.text.value != "" {
        merged := merged[i := merged[i] + item.text.value];
        out := out[i := item.(text := Some(merged[i]))];
      }
    }
    var spec := AccumulateParts(acc, items);
    assert |merged| == |spec.0|;
    forall k | 0 <= k < |merged|
      ensures merged[k] == spec.0[k]
    {
      if k < |acc| {
        assert merged[k] == acc[k] + FragmentAt(items, k);
      } else {
        assert merged[k] == "" + FragmentAt(items, k);
      }
    }
    assert merged == spec.0;
    assert out == spec.1;
  }

  /** The search for an accumulated call with the same index (first match wins). */
  method FindExistingCall(acc: seq<ToolCall>, idx: int) returns (found: Option<nat>)
    ensures found == FindCall(acc, idx)
  {
    for j := 0 to |acc|
      invariant forall k :: 0 <= k < j ==> acc[k].index != Some(idx)
    {
      if acc[j].index == Some(idx) {
        return Some(j);
      }
    }
    return None;
  }

  /** The loop over the tool-call entries of one message. */
  method MergeToolCalls(acc: seq<ToolCall>, items: seq<ToolCallItem>) returns (calls: seq<ToolCall>)
    ensures calls == AccumulateToolCalls(acc, items)
  {
    calls := acc;
    for i := 0 to |items|
      invariant calls == AccumulateToolCalls(acc, items[..i])
    {
      assert items[..i + 1][..i] == items[..i];
      var item := items[i];
      if item.CallDict? && item.call.index.Some? {
        var existing := FindExistingCall(calls, item.call.index.value);
        if existing.Some? {
          var j := existing.value;
          calls := calls[j := MergeCall(calls[j], item.call)];
        } else {
          calls := calls + [item.call];
        }
      }
    }
    assert items[..|items|] == items;
  }

  /** The body of the loop over choices, for one choice and its state. */
  method MergeChoice(cs: ChoiceState, c: Choice) returns (cs': ChoiceState, c': Choice)
    ensures (cs', c') == AccumulateChoice(cs, c)
  {
    cs', c' := cs, c;
    if c.message.Some? {
      var m := c.message.value;
      if m.content.Some? && ContentTruthy(m.content.value) {
        match m.content.value
        case Parts(items) =>
          var previous := if cs'.content.AccParts? then cs'.content.texts else [];
          var texts, out := MergeParts(previous, items);
          cs' := cs'.(content := AccParts(texts));
          m := m.(content := Some(Parts(out)));
        case Text(fragment) =>
          var previous := if cs'.content.AccText? then cs'.content.s else "";
          cs' := cs'.(content := AccText(previous + fragment));
          m := m.(content := Some(Text(cs'.content.s)));
      }
      if m.reasoningContent.Some? {
        cs' := cs'.(reasoningContent := cs'.reasoningContent + m.reasoningContent.value);
        m := m.(reasoningContent := Some(cs'.reasoningContent));
      }
      if m.toolCalls.Some? && |m.toolCalls.value| > 0 {
        var calls := MergeToolCalls(cs'.toolCalls, m.toolCalls.value);
        cs' := cs'.(toolCalls := calls);
        m := m.(toolCalls := Some(AsItems(calls)));
      }
      c' := c'.(message := Some(m));
    }
    if HasLogprobEntries(c.logprobs) {
      cs' := cs'.(logprobs := cs'.logprobs + c.logprobs.value.fields["content"].items);
      c' := c'.(logprobs := Some(Obj(c.logprobs.value.fields["content" := Arr(cs'.logprobs)])));
    }
  }

  /** The loop over `output.choices`, creating state for first-seen keys. */
  method MergeChoices(st: State, choices: seq<Choice>) returns (st': State, out: seq<Choice>)
    ensures (st', out) == AccumulateChoices(st, choices)
  {
    st', out := st, [];
    for i := 0 to |choices|
      invariant (st', out) == AccumulateChoices(st, choices[..i])
    {
      assert choices[..i + 1][..i] == choices[..i] && choices[..i + 1][i] == choices[i];
      var key := ChoiceKey(choices[i], i);
      ghost var before := st';
      if key !in st' {
        st' := st'[key := FreshChoiceState];
      }
      assert st'[key] == StateOf(before, key);
      var cs, c := MergeChoice(st'[key], choices[i]);
      st' := st'[key := cs];
      assert st' == before[key := cs];
      out := out + [c];
    }
    assert choices[..|choices|] == choices;
  }

  /** `merge_single_response`: the rewritten chunk and the new state. */
  method MergeSingleResponse(resp: Response, st: State) returns (r: Result<(Response, State), Unsupported>)
    ensures r == AccumulateChunk(resp, st)
  {
    if TextBranchApplies(resp) {
      var acc := st;
      if 0 !in acc {
        acc := acc[0 := FreshChoiceState];
      }
      if acc[0].content.AccParts? {
        return Failure(TextIntoParts);
      }
      assert acc[0] == StateOf(st, 0);
      var text := acc[0].content.s + resp.output.value.text.value;
      acc := acc[0 := acc[0].(content := AccText(text))];
      assert acc == st[0 := StateOf(st, 0).(content := AccText(text))];
      return Success((resp.(output := Some(resp.output.value.(text := Some(text)))), acc));
    }
    if HasChoices(resp) {
      var acc, choices := MergeChoices(st, resp.output.value.choices.value);
      return Success((resp.(output := Some(resp.output.value.(choices := Some(choices)))), acc));
    }
    return Success((resp, st));
  }
}
