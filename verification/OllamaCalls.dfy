/** Per-stream numbering of the complete tool calls a local provider sends, before translation.

    The translation layer would number the calls of every chunk from zero again, so that separate
    calls would look like fragments of one call. */
module OllamaCalls {
  import opened Basics
  import opened StreamEvents
  import opened ModelStream
  import opened TurnAccumulator

  // The number of calls, among the first k, that arrive with a complete argument object.
  function CompleteBefore(calls: seq<RawCall>, k: nat): nat
    requires k <= |calls|
  {
    if k == 0 then 0 else CompleteBefore(calls, k - 1) + if calls[k - 1].arguments.Object? then 1 else 0
  }

  function Complete(calls: seq<RawCall>): nat {
    CompleteBefore(calls, |calls|)
  }

  function Numbered(call: RawCall, n: nat): RawCall {
    if call.arguments.Object? then call.(index := Some(n)) else call
  }

  // Each complete call is numbered by the complete calls before it; other calls are left alone.
  ghost predicate NumberedFrom(calls: seq<RawCall>, numbered: seq<RawCall>, start: nat) {
    && |numbered| <= |calls|
    && forall k {:trigger numbered[k]} | 0 <= k < |numbered| :: numbered[k] == Numbered(calls[k], start + CompleteBefore(calls, k))
  }

  lemma CompleteMore(calls: seq<RawCall>, k: nat)
    requires k < |calls|
    ensures CompleteBefore(calls, k + 1) == CompleteBefore(calls, k) + if calls[k].arguments.Object? then 1 else 0
  {
  }

  lemma {:induction false} NumberedMore(calls: seq<RawCall>, numbered: seq<RawCall>, start: nat, next: nat)
    requires |numbered| < |calls| && NumberedFrom(calls, numbered, start) && next == start + CompleteBefore(calls, |numbered|)
    ensures NumberedFrom(calls, numbered + [Numbered(calls[|numbered|], next)], start)
  {
  }

  // The index that the translation layer gives to a call of a chunk that has none.
  type Renumbering = (seq<RawCall>, nat) -> Option<int>

  class ChunkParser {
    const renumber: Renumbering
    var nextToolIndex: nat

    constructor (renumber: Renumbering)
      ensures nextToolIndex == 0 && this.renumber == renumber
    {
      this.renumber := renumber;
      nextToolIndex := 0;
    }

    method NumberCalls(calls: seq<RawCall>) returns (numbered: seq<RawCall>)
      modifies this
      ensures nextToolIndex == old(nextToolIndex) + Complete(calls)
      ensures |numbered| == |calls| && NumberedFrom(calls, numbered, old(nextToolIndex))
    {
      numbered := [];
      var nextIndex := nextToolIndex;
      for k := 0 to |calls|
        invariant nextToolIndex == old(nextToolIndex)
        invariant nextIndex == nextToolIndex + CompleteBefore(calls, k)
        invariant |numbered| == k && NumberedFrom(calls, numbered, nextToolIndex)
      {
        NumberedMore(calls, numbered, nextToolIndex, nextIndex);
        CompleteMore(calls, k);
        var call := calls[k];
        if call.arguments.Object? {
          call := call.(index := Some(nextIndex));
          nextIndex := nextIndex + 1;
        }
        numbered := numbered + [call];
      }
      nextToolIndex := nextIndex;
    }

    // One chunk, as the accumulator will see it.
    method TranslateChunk(calls: seq<RawCall>) returns (fs: seq<ToolFragment>)
      modifies this
      ensures nextToolIndex == old(nextToolIndex) + Complete(calls) && |fs| == |calls|
      ensures forall k | 0 <= k < |fs| :: StandsAt(calls, fs, k, old(nextToolIndex))
    {
      var numbered := NumberCalls(calls);
      fs := Translation(numbered, renumber);
      TranslationStands(calls, numbered, renumber, old(nextToolIndex));
    }
  }

  // Translation writes an argument object as text and keeps an index that is already set.
  function Translated(call: RawCall, index: Option<int>): RawCall {
    var kept := if call.index.Some? then call else call.(index := index);
    if call.arguments.Object? then kept.(arguments := Fragment(call.arguments.json)) else kept
  }

  function Translation(calls: seq<RawCall>, renumber: Renumbering): (fs: seq<ToolFragment>)
    ensures |fs| == |calls| && forall k | 0 <= k < |fs| :: fs[k] == ToolFragment(Translated(calls[k], renumber(calls, k)), k)
  {
    seq(|calls|, k requires 0 <= k < |calls| => ToolFragment(Translated(calls[k], renumber(calls, k)), k))
  }

  lemma {:induction false} NumberedStands(call: RawCall, index: Option<int>, n: nat, position: nat)
    ensures Stands(ToolFragment(Translated(Numbered(call, n), index), position), n, call)
  {
  }

  // The k-th fragment stands for the k-th call of a chunk.
  ghost predicate StandsAt(calls: seq<RawCall>, fs: seq<ToolFragment>, k: nat, start: nat) {
    k < |calls| && k < |fs| && Stands(fs[k], start + CompleteBefore(calls, k), calls[k])
  }

  lemma {:induction false} TranslationStands(calls: seq<RawCall>, numbered: seq<RawCall>, renumber: Renumbering, start: nat)
    requires |numbered| == |calls| && NumberedFrom(calls, numbered, start)
    ensures forall k | 0 <= k < |calls| :: StandsAt(calls, Translation(numbered, renumber), k, start)
  {
    forall k: nat | k < |calls| ensures StandsAt(calls, Translation(numbered, renumber), k, start) {
      NumberedStands(calls[k], renumber(numbered, k), start + CompleteBefore(calls, k), k);
      assert Translation(numbered, renumber)[k] == ToolFragment(Translated(numbered[k], renumber(numbered, k)), k);
    }
  }

  // The fragment stands for a call of its stream with n complete ones before it. An incomplete call
  // without an index may have been given any.
  ghost predicate Stands(f: ToolFragment, n: nat, call: RawCall) {
    if call.arguments.Object? then Carries(f, n, call)
    else f.call == call.(index := f.call.index) && (call.index.Some? ==> f.call.index == call.index)
  }

  // The fragment stands for the n-th complete call of its stream.
  ghost predicate Carries(f: ToolFragment, n: nat, call: RawCall) {
    call.arguments.Object? && f.call == Translated(call, None).(index := Some(n))
  }

  lemma {:induction false} CompleteConcat(a: seq<RawCall>, b: seq<RawCall>, j: nat)
    requires j <= |a| + |b|
    ensures j <= |a| ==> CompleteBefore(a + b, j) == CompleteBefore(a, j)
    ensures j >= |a| ==> CompleteBefore(a + b, j) == Complete(a) + CompleteBefore(b, j - |a|)
  {
    if j > 0 { CompleteConcat(a, b, j - 1); }
  }

  function Flat(chunks: seq<seq<RawCall>>): seq<RawCall> {
    if chunks == [] then [] else Flat(chunks[..|chunks| - 1]) + chunks[|chunks| - 1]
  }

  // The fragments of a stream: complete calls are numbered through, the others keep an index they have.
  ghost predicate Translates(calls: seq<RawCall>, fs: seq<ToolFragment>) {
    |fs| == |calls| && forall j | 0 <= j < |calls| :: StandsAt(calls, fs, j, 0)
  }

  // The rebuilt call holds what its own source call said and nothing else.
  ghost predicate RebuiltFrom(state: CallState, n: nat, call: RawCall) {
    && call.arguments.Object?
    && state == CallState(n, call.id, if call.name != "" then [call.name] else [], [call.arguments.json], None, false)
  }

  method TranslateStream(chunks: seq<seq<RawCall>>, renumber: Renumbering) returns (fs: seq<ToolFragment>)
    ensures Translates(Flat(chunks), fs)
  {
    var parser := new ChunkParser(renumber);
    fs := [];
    for i := 0 to |chunks|
      invariant fresh(parser) && parser.nextToolIndex == Complete(Flat(chunks[..i]))
      invariant Translates(Flat(chunks[..i]), fs)
    {
      FlatMore(chunks, i);
      var more := parser.TranslateChunk(chunks[i]);
      TranslatesMore(Flat(chunks[..i]), fs, chunks[i], more);
      fs := fs + more;
    }
    assert chunks[..|chunks|] == chunks;
  }

  lemma {:induction false} TranslatesMore(calls: seq<RawCall>, fs: seq<ToolFragment>, chunk: seq<RawCall>, more: seq<ToolFragment>)
    requires Translates(calls, fs) && |more| == |chunk|
    requires forall k | 0 <= k < |more| :: StandsAt(chunk, more, k, Complete(calls))
    ensures Translates(calls + chunk, fs + more) && Complete(calls + chunk) == Complete(calls) + Complete(chunk)
  {
    CompleteConcat(calls, chunk, |calls| + |chunk|);
    forall j: nat | j < |calls + chunk| ensures StandsAt(calls + chunk, fs + more, j, 0) {
      StandsInBoth(calls, fs, chunk, more, j);
    }
  }

  lemma {:induction false} StandsInBoth(calls: seq<RawCall>, fs: seq<ToolFragment>, chunk: seq<RawCall>, more: seq<ToolFragment>, j: nat)
    requires |fs| == |calls| && |more| == |chunk| && j < |calls| + |chunk|
    requires j < |calls| ==> StandsAt(calls, fs, j, 0)
    requires j >= |calls| ==> StandsAt(chunk, more, j - |calls|, Complete(calls))
    ensures StandsAt(calls + chunk, fs + more, j, 0)
  {
    CompleteConcat(calls, chunk, j);
  }

  lemma {:induction false} FlatMore(chunks: seq<seq<RawCall>>, i: nat)
    requires i < |chunks|
    ensures Flat(chunks[..i + 1]) == Flat(chunks[..i]) + chunks[i]
  {
    assert chunks[..i + 1][..i] == chunks[..i];
  }

  lemma {:induction false} CompleteGrows(calls: seq<RawCall>, i: nat, j: nat)
    requires i < j <= |calls| && calls[i].arguments.Object?
    ensures CompleteBefore(calls, i) < CompleteBefore(calls, j)
    decreases j
  {
    if i < j - 1 { CompleteGrows(calls, i, j - 1); }
  }

  /** Two complete calls of a stream never share a key, from whatever chunks they come. */
  lemma {:induction false} CompleteKeysDiffer(calls: seq<RawCall>, fs: seq<ToolFragment>, i: nat, j: nat)
    requires Translates(calls, fs) && i < j < |calls| && calls[i].arguments.Object? && calls[j].arguments.Object?
    ensures KeyOf(fs[i]) != KeyOf(fs[j])
  {
    assert StandsAt(calls, fs, i, 0) && StandsAt(calls, fs, j, 0);
    CompleteGrows(calls, i, j);
  }

  // A call without a complete argument object is sent on with a number as its index.
  predicate TakesIndex(call: RawCall, f: ToolFragment, n: nat) {
    !call.arguments.Object? && f.call.index == Some(n)
  }

  ghost predicate IndexTaken(calls: seq<RawCall>, fs: seq<ToolFragment>, n: nat)
    requires |fs| == |calls|
  {
    exists k :: 0 <= k < |calls| && TakesIndex(calls[k], fs[k], n)
  }

  /** A complete call is kept apart: it is rebuilt from its own fragment alone if and only if no
      incomplete call of the stream is sent on with its number as an index. */
  lemma {:induction false} CompleteCallsKept(calls: seq<RawCall>, fs: seq<ToolFragment>, j: nat)
    requires Translates(calls, fs) && j < |calls| && calls[j].arguments.Object?
    ensures Of(fs, KeyOf(fs[j])) == [fs[j]] <==> !IndexTaken(calls, fs, CompleteBefore(calls, j))
  {
    OnlyOne(fs, j);
    forall k: nat | k < |fs| && k != j ensures KeyOf(fs[k]) == KeyOf(fs[j]) <==> TakesIndex(calls[k], fs[k], CompleteBefore(calls, j)) {
      SharesKey(calls, fs, j, k);
    }
  }

  /** A failing instance: a complete call, and in a later chunk an incomplete one that came without an
      index and was numbered from zero. */
  lemma {:induction false} RenumberedCallMerged(a: RawCall, b: RawCall, fs: seq<ToolFragment>)
    requires a.arguments.Object? && !b.arguments.Object? && b.index.None?
    requires Translates([a, b], fs) && fs[1].call.index == Some(0)
    ensures Of(fs, KeyOf(fs[0])) != [fs[0]]
  {
    CompleteCallsKept([a, b], fs, 0);
    assert TakesIndex([a, b][1], fs[1], 0);
  }

  lemma {:induction false} SharesKey(calls: seq<RawCall>, fs: seq<ToolFragment>, j: nat, k: nat)
    requires Translates(calls, fs) && j < |calls| && calls[j].arguments.Object? && k < |calls| && k != j
    ensures KeyOf(fs[k]) == KeyOf(fs[j]) <==> TakesIndex(calls[k], fs[k], CompleteBefore(calls, j))
  {
    assert StandsAt(calls, fs, j, 0);
    assert StandsAt(calls, fs, k, 0);
    if calls[k].arguments.Object? {
      if k < j { CompleteKeysDiffer(calls, fs, k, j); } else { CompleteKeysDiffer(calls, fs, j, k); }
    }
  }

  lemma {:induction false} OfCount(fs: seq<ToolFragment>, key: Key)
    ensures forall f | f in Of(fs, key) :: f in fs && KeyOf(f) == key
    ensures (forall k | 0 <= k < |fs| :: KeyOf(fs[k]) != key) ==> Of(fs, key) == []
  {
    if fs != [] {
      OfCount(fs[..|fs| - 1], key);
    }
  }

  // A key has one fragment exactly if no other position has the key.
  lemma {:induction false} OnlyOne(fs: seq<ToolFragment>, j: nat)
    requires j < |fs|
    ensures |Of(fs, KeyOf(fs[j]))| >= 1
    ensures Of(fs, KeyOf(fs[j])) == [fs[j]] <==> forall k | 0 <= k < |fs| && k != j :: KeyOf(fs[k]) != KeyOf(fs[j])
    decreases |fs|
  {
    var n, key := |fs| - 1, KeyOf(fs[j]);
    if j < n {
      OnlyOne(fs[..n], j);
      assert forall k | 0 <= k < n :: fs[..n][k] == fs[k];
    } else {
      OfCount(fs[..n], key);
      NoneBefore(fs[..n], key);
    }
  }

  lemma {:induction false} NoneBefore(fs: seq<ToolFragment>, key: Key)
    ensures Of(fs, key) == [] ==> forall k | 0 <= k < |fs| :: KeyOf(fs[k]) != key
  {
    if fs != [] {
      NoneBefore(fs[..|fs| - 1], key);
      assert forall k | 0 <= k < |fs| - 1 :: fs[..|fs| - 1][k] == fs[k];
    }
  }

  /** What such a call is rebuilt to. */
  lemma {:induction false} KeptCallIsRebuilt(calls: seq<RawCall>, fs: seq<ToolFragment>, j: nat, i: nat)
    requires Translates(calls, fs) && j < |calls| && calls[j].arguments.Object?
    requires !IndexTaken(calls, fs, CompleteBefore(calls, j)) && i < |Order(fs)| && Order(fs)[i] == KeyOf(fs[j])
    ensures RebuiltFrom(Calls(fs)[i], i, calls[j])
  {
    CompleteCallsKept(calls, fs, j);
    assert StandsAt(calls, fs, j, 0);
    RebuiltFromOne(fs[j], CompleteBefore(calls, j), i, calls[j]);
  }

  /** In a stream of complete calls only, all are rebuilt, each by itself and in order. */
  lemma {:induction false} AllCompleteKept(calls: seq<RawCall>, fs: seq<ToolFragment>)
    requires Translates(calls, fs) && forall n | 0 <= n < |calls| :: calls[n].arguments.Object?
    ensures |Calls(fs)| == |calls| && forall n | 0 <= n < |calls| :: RebuiltFrom(Calls(fs)[n], n, calls[n])
  {
    forall n | 0 <= n < |fs| ensures fs[n].call.index == Some(n) {
      CompleteAll(calls, n);
      assert StandsAt(calls, fs, n, 0);
    }
    OwnKeys(fs);
    forall n | 0 <= n < |calls| ensures RebuiltFrom(Calls(fs)[n], n, calls[n]) {
      KeptCallIsRebuilt(calls, fs, n, n);
    }
  }

  lemma {:induction false} RebuiltFromOne(f: ToolFragment, n: nat, i: nat, call: RawCall)
    requires Carries(f, n, call)
    ensures RebuiltFrom(Rebuilt(i, [f]), i, call)
  {
    RebuiltMore(i, [], f);
    assert [] + [f] == [f];
  }

  lemma {:induction false} OwnKeys(fs: seq<ToolFragment>)
    requires forall n | 0 <= n < |fs| :: fs[n].call.index == Some(n)
    ensures |Order(fs)| == |fs| && forall n | 0 <= n < |fs| :: Order(fs)[n] == Indexed(n)
  {
    if fs != [] {
      OwnKeys(fs[..|fs| - 1]);
    }
  }

  lemma {:induction false} CompleteAll(calls: seq<RawCall>, k: nat)
    requires k <= |calls| && forall k | 0 <= k < |calls| :: calls[k].arguments.Object?
    ensures CompleteBefore(calls, k) == k
  {
    if k > 0 { CompleteAll(calls, k - 1); }
  }
}
