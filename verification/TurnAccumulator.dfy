/** Reconstruction of one assistant turn, with its tool calls, from normalised stream events. */
module TurnAccumulator {
  import opened Basics
  import opened StreamEvents
  import Text

  // Calls are keyed by the provider's index, or by their position in the delta when unindexed.
  datatype Key = Indexed(index: int) | Positioned(position: nat)

  function KeyOf(f: ToolFragment): Key {
    if f.call.index.Some? then Indexed(f.call.index.value) else Positioned(f.position)
  }

  datatype CallState = CallState(
    ordinal: nat,
    providerId: string,
    nameParts: seq<string>,
    argumentParts: seq<string>,
    argumentObject: Option<string>,
    complete: bool)

  function Merge(state: CallState, f: ToolFragment): CallState {
    var call := f.call;
    CallState(
      state.ordinal,
      if call.id != "" then call.id else state.providerId,
      if call.name != "" then state.nameParts + [call.name] else state.nameParts,
      if call.arguments.Fragment? then state.argumentParts + [call.arguments.text] else state.argumentParts,
      if call.arguments.Object? then Some(call.arguments.json) else state.argumentObject,
      state.complete || call.arguments.Object?)
  }

  // The keys of some fragments in order of first appearance.
  function Order(fs: seq<ToolFragment>): (keys: seq<Key>)
    ensures forall i, j | 0 <= i < j < |keys| :: keys[i] != keys[j]
  {
    if fs == [] then []
    else
      var before, key := Order(fs[..|fs| - 1]), KeyOf(fs[|fs| - 1]);
      if key in before then before else before + [key]
  }

  // One key's own fragments.
  function Of(fs: seq<ToolFragment>, key: Key): seq<ToolFragment> {
    if fs == [] then []
    else Of(fs[..|fs| - 1], key) + if KeyOf(fs[|fs| - 1]) == key then [fs[|fs| - 1]] else []
  }

  // What one call's fragments amount to.
  function Rebuilt(ordinal: nat, fs: seq<ToolFragment>): CallState {
    if fs == [] then CallState(ordinal, "", [], [], None, false)
    else Merge(Rebuilt(ordinal, fs[..|fs| - 1]), fs[|fs| - 1])
  }

  // The calls of a turn, in order of first appearance, each from its own fragments alone.
  function Calls(fs: seq<ToolFragment>): (calls: seq<CallState>)
    ensures |calls| == |Order(fs)|
    ensures forall i | 0 <= i < |calls| :: calls[i] == Rebuilt(i, Of(fs, Order(fs)[i]))
  {
    seq(|Order(fs)|, i requires 0 <= i < |Order(fs)| => Rebuilt(i, Of(fs, Order(fs)[i])))
  }

  lemma OrderMore(fs: seq<ToolFragment>, f: ToolFragment)
    ensures Order(fs + [f]) == if KeyOf(f) in Order(fs) then Order(fs) else Order(fs) + [KeyOf(f)]
  {
    assert (fs + [f])[..|fs|] == fs;
  }

  lemma OfMore(fs: seq<ToolFragment>, f: ToolFragment, key: Key)
    ensures Of(fs + [f], key) == if KeyOf(f) == key then Of(fs, key) + [f] else Of(fs, key)
  {
    assert (fs + [f])[..|fs|] == fs;
  }

  lemma {:induction false} OfUnseenKey(fs: seq<ToolFragment>, key: Key)
    ensures Of(fs, key) == [] <==> key !in Order(fs)
  {
    if fs != [] {
      OfUnseenKey(fs[..|fs| - 1], key);
    }
  }

  // A dictionary of call states, with its insertion order, holds exactly the calls of some fragments.
  ghost predicate Represents(keys: seq<Key>, calls: map<Key, CallState>, fs: seq<ToolFragment>) {
    && keys == Order(fs)
    && (forall key :: key in calls <==> key in keys)
    && forall i | 0 <= i < |keys| :: calls[keys[i]] == Rebuilt(i, Of(fs, keys[i]))
  }

  function Extended(keys: seq<Key>, calls: map<Key, CallState>, f: ToolFragment): (seq<Key>, map<Key, CallState>) {
    var key := KeyOf(f);
    if key in calls then (keys, calls[key := Merge(calls[key], f)])
    else (keys + [key], calls[key := Merge(CallState(|keys|, "", [], [], None, false), f)])
  }

  lemma RebuiltMore(ordinal: nat, fs: seq<ToolFragment>, f: ToolFragment)
    ensures Rebuilt(ordinal, fs + [f]) == Merge(Rebuilt(ordinal, fs), f)
  {
    assert (fs + [f])[..|fs|] == fs;
  }

  lemma RepresentsMore(keys: seq<Key>, calls: map<Key, CallState>, fs: seq<ToolFragment>, f: ToolFragment)
    requires Represents(keys, calls, fs)
    ensures var (keys', calls') := Extended(keys, calls, f); Represents(keys', calls', fs + [f])
  {
    OrderMore(fs, f);
    var (keys', calls') := Extended(keys, calls, f);
    forall i | 0 <= i < |keys'| ensures calls'[keys'[i]] == Rebuilt(i, Of(fs + [f], keys'[i])) {
      if i < |keys| {
        KnownCallExtended(keys, calls, fs, f, i);
      } else {
        OfUnseenKey(fs, KeyOf(f));
        RebuiltAfter(i, fs, f, KeyOf(f));
      }
    }
  }

  lemma KnownCallExtended(keys: seq<Key>, calls: map<Key, CallState>, fs: seq<ToolFragment>, f: ToolFragment, i: nat)
    requires Represents(keys, calls, fs) && i < |keys|
    ensures var (keys', calls') := Extended(keys, calls, f);
            keys'[i] == keys[i] && calls'[keys[i]] == Rebuilt(i, Of(fs + [f], keys[i]))
  {
    assert calls[keys[i]] == Rebuilt(i, Of(fs, keys[i]));
    RebuiltAfter(i, fs, f, keys[i]);
  }

  lemma RebuiltAfter(ordinal: nat, fs: seq<ToolFragment>, f: ToolFragment, key: Key)
    ensures Rebuilt(ordinal, Of(fs + [f], key))
            == if KeyOf(f) == key then Merge(Rebuilt(ordinal, Of(fs, key)), f) else Rebuilt(ordinal, Of(fs, key))
  {
    OfMore(fs, f, key);
    RebuiltMore(ordinal, Of(fs, key), f);
  }

  function Concatenated(parts: seq<string>): string {
    if parts == [] then "" else Concatenated(parts[..|parts| - 1]) + parts[|parts| - 1]
  }

  datatype ToolCall = ToolCall(id: string, name: string, arguments: string)

  // The outcome of parsing an argument text as JSON: only an object is acceptable.
  datatype Decoded = NotJson | NotAnObject | Decoded(json: string)

  datatype StreamError = MissingName | MalformedArguments(tool: string) | ArgumentsNotAnObject(tool: string)

  function CallId(requestId: string, state: CallState): string {
    if state.providerId != "" then state.providerId
    else "call_stream_" + requestId + "_" + Text.Digits(state.ordinal)
  }

  function Canonical(state: CallState, requestId: string, decode: string -> Decoded): Result<ToolCall, StreamError> {
    var name := Text.Strip(Concatenated(state.nameParts));
    if name == "" then Err(MissingName)
    else if state.argumentObject.Some? then Ok(ToolCall(CallId(requestId, state), name, state.argumentObject.value))
    else
      var stripped := Text.Strip(Concatenated(state.argumentParts));
      match decode(if stripped == "" then "{}" else stripped)
      case NotJson => Err(MalformedArguments(name))
      case NotAnObject => Err(ArgumentsNotAnObject(name))
      case Decoded(json) => Ok(ToolCall(CallId(requestId, state), name, json))
  }

  // All calls in order, or the error of the first that cannot be formed.
  function CanonicalCalls(states: seq<CallState>, requestId: string, decode: string -> Decoded)
    : Result<seq<ToolCall>, StreamError>
  {
    if states == [] then Ok([])
    else
      match CanonicalCalls(states[..|states| - 1], requestId, decode)
      case Err(e) => Err(e)
      case Ok(before) =>
        match Canonical(states[|states| - 1], requestId, decode)
        case Err(e) => Err(e)
        case Ok(call) => Ok(before + [call])
  }

  // The last usage report with a positive sum, and the last finish reason given.
  function LastUsage(es: seq<Event>): Option<Usage> {
    if es == [] then None
    else
      var e := es[|es| - 1];
      if e.UsageReport? && e.usage.Sum() > 0 then Some(e.usage) else LastUsage(es[..|es| - 1])
  }

  function LastReason(es: seq<Event>): string {
    if es == [] then ""
    else
      var e := es[|es| - 1];
      if e.TurnFinished? && e.reason != "" then e.reason else LastReason(es[..|es| - 1])
  }

  datatype ModelTurnResult = ModelTurnResult(
    content: string,
    reasoning: string,
    toolCalls: seq<ToolCall>,
    usage: Option<Usage>,
    finishReason: string,
    eventCount: nat)

  ghost predicate TextsAre(texts: seq<string>, reasoning: seq<string>, es: seq<Event>) {
    && Concatenated(texts) == Channel(Characters(es), false)
    && Concatenated(reasoning) == Channel(Characters(es), true)
  }

  // The calls a turn returns, or its error.
  function CallsIn(r: Result<ModelTurnResult, StreamError>): Result<seq<ToolCall>, StreamError> {
    match r
    case Ok(turn) => Ok(turn.toolCalls)
    case Err(e) => Err(e)
  }

  class ModelTurnAccumulator {
    const requestId: string
    var textParts: seq<string>
    var reasoningParts: seq<string>
    var keys: seq<Key>
    var toolCalls: map<Key, CallState>
    var usage: Option<Usage>
    var finishReason: string
    var eventCount: nat

    // The fields are what the events seen so far amount to.
    ghost predicate Holds(es: seq<Event>)
      reads this
    {
      HoldsParts(es) && eventCount == |es|
    }

    ghost predicate HoldsParts(es: seq<Event>)
      reads this`textParts, this`reasoningParts, this`keys, this`toolCalls, this`usage, this`finishReason
    {
      && TextsAre(textParts, reasoningParts, es) && Represents(keys, toolCalls, Fragments(es))
      && usage == LastUsage(es) && finishReason == LastReason(es)
    }

    constructor (requestId: string)
      ensures this.requestId == requestId && Holds([])
    {
      this.requestId := requestId;
      textParts, reasoningParts, keys, toolCalls := [], [], [], map[];
      usage, finishReason, eventCount := None, "", 0;
    }

    method Add(event: Event, ghost es: seq<Event>)
      requires Holds(es)
      modifies this
      ensures Holds(es + [event])
    {
      eventCount := eventCount + 1;
      match event {
        case TextDelta(_) => AddText(event, es);
        case ReasoningDelta(_) => AddText(event, es);
        case UsageReport(_) => AddEnd(event, es);
        case TurnFinished(_) => AddEnd(event, es);
        case ToolCallDelta(fragment) =>
          TextsMore(textParts, reasoningParts, es, event);
          AddedOther(es, event);
          AddFragment(fragment, Fragments(es));
      }
    }

    method AddText(event: Event, ghost es: seq<Event>)
      requires HoldsParts(es) && (event.TextDelta? || event.ReasoningDelta?)
      modifies this`textParts, this`reasoningParts
      ensures HoldsParts(es + [event])
    {
      TextsMore(textParts, reasoningParts, es, event);
      AddedOther(es, event);
      if event.text != "" {
        if event.TextDelta? {
          textParts := textParts + [event.text];
        } else {
          reasoningParts := reasoningParts + [event.text];
        }
      }
    }

    method AddEnd(event: Event, ghost es: seq<Event>)
      requires HoldsParts(es) && (event.UsageReport? || event.TurnFinished?)
      modifies this`usage, this`finishReason
      ensures HoldsParts(es + [event])
    {
      TextsMore(textParts, reasoningParts, es, event);
      AddedOther(es, event);
      if event.UsageReport? && event.usage.Sum() > 0 {
        usage := Some(event.usage);
      }
      if event.TurnFinished? && event.reason != "" {
        finishReason := event.reason;
      }
    }

    method AddFragment(f: ToolFragment, ghost fs: seq<ToolFragment>)
      requires Represents(keys, toolCalls, fs)
      modifies this`keys, this`toolCalls
      ensures Represents(keys, toolCalls, fs + [f])
    {
      RepresentsMore(keys, toolCalls, fs, f);
      var key := KeyOf(f);
      if key !in toolCalls {
        toolCalls := toolCalls[key := CallState(|keys|, "", [], [], None, false)];
        keys := keys + [key];
      }
      toolCalls := toolCalls[key := Merge(toolCalls[key], f)];
    }

    method Finish(decode: string -> Decoded, ghost es: seq<Event>) returns (r: Result<ModelTurnResult, StreamError>)
      requires Holds(es)
      ensures r == TurnOf(es, requestId, decode) && AreCallsOf(Fragments(es), requestId, decode, CallsIn(r))
    {
      CallsMean(Fragments(es), requestId, decode);
      var calls := CallsInOrder(decode, Calls(Fragments(es)));
      if calls.Err? {
        return Err(calls.error);
      }
      r := Ok(ModelTurnResult(Concatenated(textParts), Concatenated(reasoningParts), calls.value, usage, finishReason, eventCount));
    }

    method CallsInOrder(decode: string -> Decoded, ghost states: seq<CallState>)
      returns (r: Result<seq<ToolCall>, StreamError>)
      requires |states| == |keys| && forall i | 0 <= i < |keys| :: keys[i] in toolCalls && toolCalls[keys[i]] == states[i]
      ensures r == CanonicalCalls(states, requestId, decode)
    {
      var calls: seq<ToolCall> := [];
      for i := 0 to |keys|
        invariant CanonicalCalls(states[..i], requestId, decode) == Ok(calls)
      {
        assert states[..i + 1][..i] == states[..i];
        var call := Canonical(toolCalls[keys[i]], requestId, decode);
        if call.Err? {
          CanonicalCallsFail(states, i + 1, requestId, decode);
          return Err(call.error);
        }
        calls := calls + [call.value];
      }
      assert states[..|keys|] == states;
      r := Ok(calls);
    }
  }

  // --- What a rebuilt call says, in terms of its fragments ---

  // The argument texts of some fragments, and their names, in stream order.
  function ArgumentText(fs: seq<ToolFragment>): string {
    if fs == [] then ""
    else (if fs[0].call.arguments.Fragment? then fs[0].call.arguments.text else "") + ArgumentText(fs[1..])
  }

  function NameText(fs: seq<ToolFragment>): string {
    if fs == [] then "" else fs[0].call.name + NameText(fs[1..])
  }

  // The last id that is not empty, and the last argument object.
  ghost predicate LastIdAt(fs: seq<ToolFragment>, k: int) {
    0 <= k < |fs| && fs[k].call.id != "" && forall j | k < j < |fs| :: fs[j].call.id == ""
  }

  ghost predicate LastObjectAt(fs: seq<ToolFragment>, k: int) {
    0 <= k < |fs| && fs[k].call.arguments.Object? && forall j | k < j < |fs| :: !fs[j].call.arguments.Object?
  }

  ghost predicate IsLastId(fs: seq<ToolFragment>, id: string) {
    if id == "" then forall k | 0 <= k < |fs| :: fs[k].call.id == ""
    else exists k :: LastIdAt(fs, k) && fs[k].call.id == id
  }

  ghost predicate IsLastObject(fs: seq<ToolFragment>, json: Option<string>) {
    match json
    case None => forall k | 0 <= k < |fs| :: !fs[k].call.arguments.Object?
    case Some(text) => exists k :: LastObjectAt(fs, k) && fs[k].call.arguments.json == text
  }

  lemma {:induction false} ArgumentTextConcat(a: seq<ToolFragment>, b: seq<ToolFragment>)
    ensures ArgumentText(a + b) == ArgumentText(a) + ArgumentText(b)
  {
    FirstOf(a, b);
    if a != [] {
      ArgumentTextConcat(a[1..], b);
      Associate(if a[0].call.arguments.Fragment? then a[0].call.arguments.text else "", ArgumentText(a[1..]), ArgumentText(b));
    }
  }

  lemma {:induction false} NameTextConcat(a: seq<ToolFragment>, b: seq<ToolFragment>)
    ensures NameText(a + b) == NameText(a) + NameText(b)
  {
    FirstOf(a, b);
    if a != [] {
      NameTextConcat(a[1..], b);
      Associate(a[0].call.name, NameText(a[1..]), NameText(b));
    }
  }

  lemma {:induction false} TextsOfOne(f: ToolFragment)
    ensures ArgumentText([f]) == if f.call.arguments.Fragment? then f.call.arguments.text else ""
    ensures NameText([f]) == f.call.name
  {
    assert [f][1..] == [];
    assert f.call.name + "" == f.call.name;
    if f.call.arguments.Fragment? { assert f.call.arguments.text + "" == f.call.arguments.text; }
  }

  lemma {:induction false} LastIdMore(fs: seq<ToolFragment>, id: string, f: ToolFragment)
    requires IsLastId(fs, id)
    ensures IsLastId(fs + [f], if f.call.id != "" then f.call.id else id)
  {
    if f.call.id != "" {
      assert LastIdAt(fs + [f], |fs|);
    } else if id != "" {
      var k :| LastIdAt(fs, k) && fs[k].call.id == id;
      assert LastIdAt(fs + [f], k);
    }
  }

  lemma {:induction false} LastObjectMore(fs: seq<ToolFragment>, json: Option<string>, f: ToolFragment)
    requires IsLastObject(fs, json)
    ensures IsLastObject(fs + [f], if f.call.arguments.Object? then Some(f.call.arguments.json) else json)
  {
    if f.call.arguments.Object? {
      assert LastObjectAt(fs + [f], |fs|);
    } else if json.Some? {
      var k :| LastObjectAt(fs, k) && fs[k].call.arguments.json == json.value;
      assert LastObjectAt(fs + [f], k);
    }
  }

  /** A rebuilt call joins what its own fragments carry, in stream order: their names and argument
      texts one after the other, and of ids and argument objects the last. */
  lemma {:induction false} RebuiltMeans(ordinal: nat, fs: seq<ToolFragment>)
    ensures var state := Rebuilt(ordinal, fs);
            && Concatenated(state.argumentParts) == ArgumentText(fs) && Concatenated(state.nameParts) == NameText(fs)
            && IsLastId(fs, state.providerId) && IsLastObject(fs, state.argumentObject) && state.ordinal == ordinal
            && (state.complete <==> state.argumentObject.Some?)
  {
    RebuiltTexts(ordinal, fs);
    RebuiltLast(ordinal, fs);
    RebuiltOrdinal(ordinal, fs);
  }

  lemma {:induction false} RebuiltTexts(ordinal: nat, fs: seq<ToolFragment>)
    ensures Concatenated(Rebuilt(ordinal, fs).argumentParts) == ArgumentText(fs)
    ensures Concatenated(Rebuilt(ordinal, fs).nameParts) == NameText(fs)
  {
    if fs != [] {
      var n := |fs| - 1;
      var before, f := Rebuilt(ordinal, fs[..n]), fs[n];
      RebuiltTexts(ordinal, fs[..n]);
      assert fs == fs[..n] + [f];
      ArgumentTextConcat(fs[..n], [f]);
      NameTextConcat(fs[..n], [f]);
      TextsOfOne(f);
      if f.call.arguments.Fragment? { ConcatenatedMore(before.argumentParts, f.call.arguments.text); }
      if f.call.name != "" { ConcatenatedMore(before.nameParts, f.call.name); }
    }
  }

  lemma {:induction false} RebuiltLast(ordinal: nat, fs: seq<ToolFragment>)
    ensures var state := Rebuilt(ordinal, fs);
            && IsLastId(fs, state.providerId) && IsLastObject(fs, state.argumentObject)
            && (state.complete <==> state.argumentObject.Some?)
  {
    if fs != [] {
      var n := |fs| - 1;
      var before := Rebuilt(ordinal, fs[..n]);
      RebuiltLast(ordinal, fs[..n]);
      LastIdMore(fs[..n], before.providerId, fs[n]);
      LastObjectMore(fs[..n], before.argumentObject, fs[n]);
      assert fs == fs[..n] + [fs[n]];
    }
  }

  // The text a call's arguments are decoded from when no fragment carries an object.
  function GivenArguments(own: seq<ToolFragment>): string {
    if Text.Strip(ArgumentText(own)) == "" then "{}" else Text.Strip(ArgumentText(own))
  }

  function GeneratedId(requestId: string, ordinal: nat): string {
    "call_stream_" + requestId + "_" + Text.Digits(ordinal)
  }

  // What becomes of a call, given its own fragments and its place among the calls.
  ghost predicate IsCallOf(
    own: seq<ToolFragment>, ordinal: nat, requestId: string, decode: string -> Decoded, r: Result<ToolCall, StreamError>)
  {
    var name := Text.Strip(NameText(own));
    match r
    case Ok(call) =>
      && name != "" && call.name == name
      && ((call.id != "" && IsLastId(own, call.id)) || (IsLastId(own, "") && call.id == GeneratedId(requestId, ordinal)))
      && (IsLastObject(own, Some(call.arguments))
          || (IsLastObject(own, None) && decode(GivenArguments(own)) == Decoded.Decoded(call.arguments)))
    case Err(MissingName) => name == ""
    case Err(MalformedArguments(tool)) =>
      name != "" && tool == name && IsLastObject(own, None) && decode(GivenArguments(own)) == NotJson
    case Err(ArgumentsNotAnObject(tool)) =>
      name != "" && tool == name && IsLastObject(own, None) && decode(GivenArguments(own)) == NotAnObject
  }

  // The i-th call cannot be formed, and those before it can.
  ghost predicate FailsFirst(fs: seq<ToolFragment>, i: int, requestId: string, decode: string -> Decoded, e: StreamError) {
    && 0 <= i < |Order(fs)| && IsCallOf(Of(fs, Order(fs)[i]), i, requestId, decode, Err(e))
    && forall j | 0 <= j < i :: CanBeFormed(fs, j, requestId, decode)
  }

  ghost predicate CanBeFormed(fs: seq<ToolFragment>, j: nat, requestId: string, decode: string -> Decoded)
    requires j < |Order(fs)|
  {
    exists call :: IsCallOf(Of(fs, Order(fs)[j]), j, requestId, decode, Ok(call))
  }

  // The calls of a turn, one for each key in order of first appearance, or the error of the first
  // that cannot be formed.
  ghost predicate AreCallsOf(
    fs: seq<ToolFragment>, requestId: string, decode: string -> Decoded, r: Result<seq<ToolCall>, StreamError>)
  {
    match r
    case Ok(calls) =>
      |calls| == |Order(fs)|
      && forall i | 0 <= i < |calls| :: IsCallOf(Of(fs, Order(fs)[i]), i, requestId, decode, Ok(calls[i]))
    case Err(e) => exists i :: FailsFirst(fs, i, requestId, decode, e)
  }

  lemma {:induction false} CanonicalMeans(own: seq<ToolFragment>, ordinal: nat, requestId: string, decode: string -> Decoded)
    ensures IsCallOf(own, ordinal, requestId, decode, Canonical(Rebuilt(ordinal, own), requestId, decode))
  {
    RebuiltMeans(ordinal, own);
  }

  lemma {:induction false} EachCanonical(states: seq<CallState>, requestId: string, decode: string -> Decoded, i: nat)
    requires CanonicalCalls(states, requestId, decode).Ok? && i < |states|
    ensures var calls := CanonicalCalls(states, requestId, decode).value;
            i < |calls| && Canonical(states[i], requestId, decode) == Ok(calls[i])
  {
    var n := |states| - 1;
    CanonicalSize(states[..n], requestId, decode);
    if i < n { EachCanonical(states[..n], requestId, decode, i); }
  }

  lemma {:induction false} CanonicalSize(states: seq<CallState>, requestId: string, decode: string -> Decoded)
    requires CanonicalCalls(states, requestId, decode).Ok?
    ensures |CanonicalCalls(states, requestId, decode).value| == |states|
  {
    if states != [] { CanonicalSize(states[..|states| - 1], requestId, decode); }
  }

  lemma {:induction false} FirstNotCanonical(states: seq<CallState>, requestId: string, decode: string -> Decoded) returns (i: nat)
    requires CanonicalCalls(states, requestId, decode).Err?
    ensures FirstError(states, i, requestId, decode, CanonicalCalls(states, requestId, decode).error)
  {
    var n := |states| - 1;
    if CanonicalCalls(states[..n], requestId, decode).Err? {
      i := FirstNotCanonical(states[..n], requestId, decode);
      assert forall j | 0 <= j < i :: states[..n][j] == states[j];
    } else {
      i := n;
      forall j: nat | j < n ensures Canonical(states[j], requestId, decode).Ok? {
        EachCanonical(states[..n], requestId, decode, j);
      }
    }
  }

  ghost predicate FirstError(states: seq<CallState>, i: int, requestId: string, decode: string -> Decoded, e: StreamError) {
    && 0 <= i < |states| && Canonical(states[i], requestId, decode) == Err(e)
    && forall j | 0 <= j < i :: Canonical(states[j], requestId, decode).Ok?
  }

  /** The calls a turn returns, or its error, in terms of the fragments alone. */
  lemma {:induction false} CallsMean(fs: seq<ToolFragment>, requestId: string, decode: string -> Decoded)
    ensures AreCallsOf(fs, requestId, decode, CanonicalCalls(Calls(fs), requestId, decode))
  {
    forall i: nat | i < |Order(fs)|
      ensures IsCallOf(Of(fs, Order(fs)[i]), i, requestId, decode, Canonical(Calls(fs)[i], requestId, decode))
    {
      CanonicalMeans(Of(fs, Order(fs)[i]), i, requestId, decode);
    }
    if CanonicalCalls(Calls(fs), requestId, decode).Ok? {
      CanonicalSize(Calls(fs), requestId, decode);
      forall i: nat | i < |Order(fs)|
        ensures Canonical(Calls(fs)[i], requestId, decode) == Ok(CanonicalCalls(Calls(fs), requestId, decode).value[i])
      {
        EachCanonical(Calls(fs), requestId, decode, i);
      }
    } else {
      var i := FirstNotCanonical(Calls(fs), requestId, decode);
      forall j: nat | j < i ensures CanBeFormed(fs, j, requestId, decode) {
        assert Canonical(Calls(fs)[j], requestId, decode).Ok?;
      }
      assert FailsFirst(fs, i, requestId, decode, CanonicalCalls(Calls(fs), requestId, decode).error);
    }
  }

  /** Its own fragments, in stream order: a stream can be read in two parts, and a single fragment is
      the key's own or not. */
  lemma {:induction false} OfMeans(a: seq<ToolFragment>, b: seq<ToolFragment>, key: Key, f: ToolFragment)
    ensures Of(a + b, key) == Of(a, key) + Of(b, key)
    ensures Of([], key) == [] && Of([f], key) == if KeyOf(f) == key then [f] else []
  {
    OfConcat(a, b, key);
    OfMore([], f, key);
    assert [] + [f] == [f];
  }

  lemma {:induction false} OfConcat(a: seq<ToolFragment>, b: seq<ToolFragment>, key: Key)
    ensures Of(a + b, key) == Of(a, key) + Of(b, key)
  {
    if b == [] {
      assert a + b == a;
    } else {
      var n := |b| - 1;
      OfConcat(a, b[..n], key);
      LastOf(a, b);
      Associate(Of(a, key), Of(b[..n], key), if KeyOf(b[n]) == key then [b[n]] else []);
    }
  }

  // The position at which a key first appears.
  ghost predicate FirstAt(fs: seq<ToolFragment>, key: Key, p: int) {
    0 <= p < |fs| && KeyOf(fs[p]) == key && forall q | 0 <= q < p :: KeyOf(fs[q]) != key
  }

  ghost predicate Precedes(fs: seq<ToolFragment>, a: Key, b: Key) {
    exists p, q :: FirstAt(fs, a, p) && FirstAt(fs, b, q) && p < q
  }

  /** The keys are those of the fragments, in the order in which they first appear. */
  lemma {:induction false} OrderMeans(fs: seq<ToolFragment>)
    ensures forall key :: key in Order(fs) <==> exists p :: 0 <= p < |fs| && KeyOf(fs[p]) == key
    ensures forall i, j | 0 <= i < j < |Order(fs)| :: Precedes(fs, Order(fs)[i], Order(fs)[j])
  {
    forall key ensures key in Order(fs) <==> exists p :: 0 <= p < |fs| && KeyOf(fs[p]) == key {
      NotAmong(fs, key);
    }
    forall i: nat, j: nat | i < j < |Order(fs)| ensures Precedes(fs, Order(fs)[i], Order(fs)[j]) {
      OrderRises(fs, i, j);
    }
  }

  lemma {:induction false} OrderRises(fs: seq<ToolFragment>, i: nat, j: nat)
    requires i < j < |Order(fs)|
    ensures Precedes(fs, Order(fs)[i], Order(fs)[j])
  {
    var n := |fs| - 1;
    var before := Order(fs[..n]);
    if j < |before| {
      OrderRises(fs[..n], i, j);
      var p, q :| FirstAt(fs[..n], before[i], p) && FirstAt(fs[..n], before[j], q) && p < q;
      FirstStays(fs, before[i], p);
      FirstStays(fs, before[j], q);
    } else {
      var p := FirstOfKey(fs[..n], before[i]);
      FirstStays(fs, before[i], p);
      NotAmong(fs[..n], KeyOf(fs[n]));
      assert FirstAt(fs, KeyOf(fs[n]), n);
    }
  }

  lemma FirstStays(fs: seq<ToolFragment>, key: Key, p: int)
    requires fs != [] && FirstAt(fs[..|fs| - 1], key, p)
    ensures FirstAt(fs, key, p)
  {
    forall q | 0 <= q < p ensures KeyOf(fs[q]) != key {
      assert fs[..|fs| - 1][q] == fs[q];
    }
  }

  lemma {:induction false} NotAmong(fs: seq<ToolFragment>, key: Key)
    ensures key !in Order(fs) <==> forall q | 0 <= q < |fs| :: KeyOf(fs[q]) != key
  {
    if fs != [] { NotAmong(fs[..|fs| - 1], key); }
  }

  lemma {:induction false} FirstOfKey(fs: seq<ToolFragment>, key: Key) returns (p: nat)
    requires key in Order(fs)
    ensures FirstAt(fs, key, p)
  {
    var n := |fs| - 1;
    if key in Order(fs[..n]) {
      p := FirstOfKey(fs[..n], key);
    } else {
      NotAmong(fs[..n], key);
      p := n;
    }
  }

  // The turn a whole list of events stands for.
  function TurnOf(es: seq<Event>, requestId: string, decode: string -> Decoded): Result<ModelTurnResult, StreamError> {
    match CanonicalCalls(Calls(Fragments(es)), requestId, decode)
    case Err(e) => Err(e)
    case Ok(calls) =>
      Ok(ModelTurnResult(Channel(Characters(es), false), Channel(Characters(es), true), calls,
                         LastUsage(es), LastReason(es), |es|))
  }

  function TextIn(e: Event, reasoning: bool): string {
    match e
    case TextDelta(t) => if reasoning then "" else t
    case ReasoningDelta(t) => if reasoning then t else ""
    case _ => ""
  }

  lemma AddedText(es: seq<Event>, e: Event, reasoning: bool)
    ensures Channel(Characters(es + [e]), reasoning) == Channel(Characters(es), reasoning) + TextIn(e, reasoning)
  {
    CharactersConcat(es, [e]);
    ChannelConcat(Characters(es), Characters([e]), reasoning);
    OneEvent(e);
    if e.TextDelta? { ChannelOfTag(e.text, false, reasoning); }
    if e.ReasoningDelta? { ChannelOfTag(e.text, true, reasoning); }
  }

  lemma OneEvent(e: Event)
    ensures Characters([e]) == CharactersIn(e) && Fragments([e]) == FragmentIn(e)
  {
    assert CharactersIn(e) + [] == CharactersIn(e);
    assert FragmentIn(e) + [] == FragmentIn(e);
  }

  lemma AddedOther(es: seq<Event>, e: Event)
    ensures Fragments(es + [e]) == if e.ToolCallDelta? then Fragments(es) + [e.fragment] else Fragments(es)
    ensures LastUsage(es + [e]) == if e.UsageReport? && e.usage.Sum() > 0 then Some(e.usage) else LastUsage(es)
    ensures LastReason(es + [e]) == if e.TurnFinished? && e.reason != "" then e.reason else LastReason(es)
  {
    FragmentsConcat(es, [e]);
    OneEvent(e);
    assert (es + [e])[..|es|] == es;
  }

  lemma TextsMore(texts: seq<string>, reasoning: seq<string>, es: seq<Event>, e: Event)
    requires TextsAre(texts, reasoning, es)
    ensures TextsAre(if e.TextDelta? && e.text != "" then texts + [e.text] else texts,
                     if e.ReasoningDelta? && e.text != "" then reasoning + [e.text] else reasoning, es + [e])
  {
    AddedText(es, e, false);
    AddedText(es, e, true);
    if e.TextDelta? { ConcatenatedMore(texts, e.text); }
    if e.ReasoningDelta? { ConcatenatedMore(reasoning, e.text); }
  }

  lemma ConcatenatedMore(parts: seq<string>, part: string)
    ensures Concatenated(parts + [part]) == Concatenated(parts) + part
  {
    assert (parts + [part])[..|parts|] == parts;
  }

  lemma {:induction false} CanonicalCallsFail(states: seq<CallState>, n: nat, requestId: string, decode: string -> Decoded)
    requires n <= |states| && CanonicalCalls(states[..n], requestId, decode).Err?
    ensures CanonicalCalls(states, requestId, decode) == CanonicalCalls(states[..n], requestId, decode)
    decreases |states|
  {
    if n < |states| {
      var before := states[..|states| - 1];
      assert before[..n] == states[..n];
      CanonicalCallsFail(before, n, requestId, decode);
    } else {
      assert states[..n] == states;
    }
  }

  /** Interleaving independence: two fragment sequences in which the keys appear first in the same
      order, and each key's own fragments are the same, rebuild the same turn. */
  lemma InterleavingIndependent(a: seq<ToolFragment>, b: seq<ToolFragment>)
    requires Order(a) == Order(b) && forall key | key in Order(a) :: Of(a, key) == Of(b, key)
    ensures Calls(a) == Calls(b)
  {
    forall i | 0 <= i < |Order(a)| ensures Calls(a)[i] == Calls(b)[i] {
      assert Order(a)[i] in Order(a);
    }
  }

  /** In particular, neighbouring fragments of different calls may be exchanged unless both calls
      are just being opened. */
  lemma ExchangeNeighbours(before: seq<ToolFragment>, f: ToolFragment, g: ToolFragment, after: seq<ToolFragment>)
    requires KeyOf(f) != KeyOf(g)
    requires KeyOf(f) in Order(before) || KeyOf(g) in Order(before)
    ensures Calls(before + [f, g] + after) == Calls(before + [g, f] + after)
  {
    ExchangedOrder(before, f, g, after);
    forall key | key in Order(before + [f, g] + after)
      ensures Of(before + [f, g] + after, key) == Of(before + [g, f] + after, key)
    {
      ExchangedFragments(before, f, g, after, key);
    }
    InterleavingIndependent(before + [f, g] + after, before + [g, f] + after);
  }

  lemma {:induction false} ExchangedOrder(before: seq<ToolFragment>, f: ToolFragment, g: ToolFragment, after: seq<ToolFragment>)
    requires KeyOf(f) != KeyOf(g) && (KeyOf(f) in Order(before) || KeyOf(g) in Order(before))
    ensures Order(before + [f, g] + after) == Order(before + [g, f] + after)
  {
    if after == [] {
      TwoMore(before, f, g);
      TwoMore(before, g, f);
      OrderMore(before, f);
      OrderMore(before + [f], g);
      OrderMore(before, g);
      OrderMore(before + [g], f);
    } else {
      var n := |after| - 1;
      ExchangedOrder(before, f, g, after[..n]);
      LastOf(before + [f, g], after);
      LastOf(before + [g, f], after);
    }
  }

  lemma {:induction false} ExchangedFragments(before: seq<ToolFragment>, f: ToolFragment, g: ToolFragment, after: seq<ToolFragment>, key: Key)
    requires KeyOf(f) != KeyOf(g)
    ensures Of(before + [f, g] + after, key) == Of(before + [g, f] + after, key)
  {
    if after == [] {
      TwoMore(before, f, g);
      TwoMore(before, g, f);
      OfMore(before, f, key);
      OfMore(before + [f], g, key);
      OfMore(before, g, key);
      OfMore(before + [g], f, key);
    } else {
      var n := |after| - 1;
      ExchangedFragments(before, f, g, after[..n], key);
      LastOf(before + [f, g], after);
      LastOf(before + [g, f], after);
    }
  }

  lemma TwoMore(before: seq<ToolFragment>, f: ToolFragment, g: ToolFragment)
    ensures before + [f, g] + [] == before + [f] + [g]
  {
  }

  lemma LastOf(before: seq<ToolFragment>, after: seq<ToolFragment>)
    requires after != []
    ensures (before + after)[..|before + after| - 1] == before + after[..|after| - 1]
    ensures (before + after)[|before + after| - 1] == after[|after| - 1]
  {
  }

  /** Two calls of one turn that the provider left without an id get different ids, and two calls
      that share an id do so only because the provider named one of them that way. */
  lemma IdsDistinct(fs: seq<ToolFragment>, requestId: string, i: nat, j: nat)
    requires i < j < |Calls(fs)|
    requires CallId(requestId, Calls(fs)[i]) == CallId(requestId, Calls(fs)[j])
    ensures Calls(fs)[i].providerId != "" || Calls(fs)[j].providerId != ""
  {
    var a, b := Calls(fs)[i], Calls(fs)[j];
    RebuiltOrdinal(i, Of(fs, Order(fs)[i]));
    RebuiltOrdinal(j, Of(fs, Order(fs)[j]));
    if a.providerId == "" && b.providerId == "" {
      var prefix := "call_stream_" + requestId + "_";
      assert (prefix + Text.Digits(i))[|prefix|..] == Text.Digits(i);
      assert (prefix + Text.Digits(j))[|prefix|..] == Text.Digits(j);
      Text.DigitsInjective(i, j);
    }
  }

  lemma {:induction false} RebuiltOrdinal(ordinal: nat, fs: seq<ToolFragment>)
    ensures Rebuilt(ordinal, fs).ordinal == ordinal
  {
    if fs != [] {
      RebuiltOrdinal(ordinal, fs[..|fs| - 1]);
    }
  }
}
