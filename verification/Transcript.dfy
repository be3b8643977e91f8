/** Tool chains in a chat transcript: assistant calls followed by their results, and the repair of
    histories in which some calls have lost their results. */
module Transcript {
  import opened Messages

  // The results of some calls: one tool message per call, in order, carrying the call's id.
  ghost predicate Answers(calls: seq<Call>, results: seq<Message>) {
    && |results| == |calls|
    && forall k | 0 <= k < |calls| ::
      results[k].role == Tool && results[k].callId == calls[k].id && results[k].toolCalls == []
  }

  // The messages a message's calls take up, itself included.
  function Span(m: Message): nat { |m.toolCalls| + 1 }

  // The history opens with a message and, if it has calls, all their results.
  ghost predicate LeadsChain(h: seq<Message>) {
    && h != [] && h[0].role != Tool && (h[0].toolCalls != [] ==> h[0].role == Assistant)
    && Span(h[0]) <= |h| && Answers(h[0].toolCalls, h[1..Span(h[0])])
  }

  // Whole chains: every assistant message with calls is followed at once by exactly their results,
  // and there are no other tool messages or calls.
  ghost predicate Whole(h: seq<Message>)
    decreases |h|
  {
    h == [] || (LeadsChain(h) && Whole(h[Span(h[0])..]))
  }

  lemma LeadsChainExtended(a: seq<Message>, b: seq<Message>)
    requires LeadsChain(a)
    ensures LeadsChain(a + b) && (a + b)[Span(a[0])..] == a[Span(a[0])..] + b
  {
    assert (a + b)[1..Span(a[0])] == a[1..Span(a[0])];
  }

  lemma LeadsChainCut(h: seq<Message>, cut: nat)
    requires LeadsChain(h) && Span(h[0]) <= cut <= |h|
    ensures LeadsChain(h[..cut]) && h[..cut][Span(h[0])..] == h[Span(h[0])..][..cut - Span(h[0])]
  {
    assert h[..cut][1..Span(h[0])] == h[1..Span(h[0])];
  }

  lemma ResultsFollow(h: seq<Message>, k: nat)
    requires LeadsChain(h) && 0 < k < Span(h[0])
    ensures h[k].role == Tool && h[k].toolCalls == [] && h[k].callId == h[0].toolCalls[k - 1].id
  {
    assert h[1..Span(h[0])][k - 1] == h[k];
  }

  lemma {:induction false} WholeConcat(a: seq<Message>, b: seq<Message>)
    requires Whole(a) && Whole(b)
    ensures Whole(a + b)
    decreases |a|
  {
    if a == [] {
      assert a + b == b;
    } else {
      LeadsChainExtended(a, b);
      WholeConcat(a[Span(a[0])..], b);
    }
  }

  // A whole transcript can be cut anywhere but before a tool result.
  lemma {:induction false} WholeSplit(h: seq<Message>, cut: nat)
    requires Whole(h) && cut <= |h| && (cut < |h| ==> h[cut].role != Tool)
    ensures Whole(h[..cut]) && Whole(h[cut..])
    decreases |h|
  {
    if cut == 0 {
      assert h[0..] == h;
    } else {
      var span := Span(h[0]);
      if cut < span { ResultsFollow(h, cut); }
      LeadsChainCut(h, cut);
      WholeSplit(h[span..], cut - span);
      assert h[cut..] == h[span..][cut - span..];
    }
  }

  // Equal up to contents.
  ghost predicate SameShape(a: seq<Message>, b: seq<Message>) {
    && |a| == |b|
    && forall i | 0 <= i < |a| ::
      a[i].role == b[i].role && a[i].toolCalls == b[i].toolCalls && a[i].callId == b[i].callId
  }

  lemma {:induction false} WholeByShape(a: seq<Message>, b: seq<Message>)
    requires Whole(a) && SameShape(a, b)
    ensures Whole(b)
    decreases |a|
  {
    if a != [] {
      var span := Span(a[0]);
      AnswersByShape(a[0].toolCalls, a[1..span], b[1..span]);
      ShapeOfTail(a, b, span);
      WholeByShape(a[span..], b[span..]);
    }
  }

  lemma ShapeOfTail(a: seq<Message>, b: seq<Message>, n: nat)
    requires SameShape(a, b) && n <= |a|
    ensures SameShape(a[n..], b[n..])
  {
  }

  lemma AnswersByShape(calls: seq<Call>, a: seq<Message>, b: seq<Message>)
    requires Answers(calls, a) && SameShape(a, b)
    ensures Answers(calls, b)
  {
  }

  function SystemContents(h: seq<Message>): seq<string> {
    if h == [] then [] else (if h[0].role == System then [h[0].content] else []) + SystemContents(h[1..])
  }

  function WithoutSystem(h: seq<Message>): seq<Message> {
    if h == [] then [] else (if h[0].role == System then [] else [h[0]]) + WithoutSystem(h[1..])
  }

  lemma {:induction false} WithoutSystemConcat(a: seq<Message>, b: seq<Message>)
    ensures WithoutSystem(a + b) == WithoutSystem(a) + WithoutSystem(b)
  {
    if a == [] {
      assert a + b == b;
    } else {
      assert (a + b)[1..] == a[1..] + b;
      WithoutSystemConcat(a[1..], b);
    }
  }

  lemma {:induction false} SystemContentsConcat(a: seq<Message>, b: seq<Message>)
    ensures SystemContents(a + b) == SystemContents(a) + SystemContents(b)
  {
    if a == [] {
      assert a + b == b;
    } else {
      assert (a + b)[1..] == a[1..] + b;
      SystemContentsConcat(a[1..], b);
    }
  }

  /** System messages and other ones, each in order: a history can be read in two parts, and a single
      message is one or the other. */
  lemma {:induction false} SystemAndOthers(a: seq<Message>, b: seq<Message>, m: Message)
    ensures WithoutSystem(a + b) == WithoutSystem(a) + WithoutSystem(b)
    ensures SystemContents(a + b) == SystemContents(a) + SystemContents(b)
    ensures WithoutSystem([]) == [] && SystemContents([]) == []
    ensures m.role == System ==> WithoutSystem([m]) == [] && SystemContents([m]) == [m.content]
    ensures m.role != System ==> WithoutSystem([m]) == [m] && SystemContents([m]) == []
  {
    WithoutSystemConcat(a, b);
    SystemContentsConcat(a, b);
    OneMessage(m);
  }

  lemma OneMessage(m: Message)
    ensures WithoutSystem([m]) == (if m.role == System then [] else [m]) + WithoutSystem([])
    ensures SystemContents([m]) == (if m.role == System then [m.content] else []) + SystemContents([])
  {
  }

  lemma {:induction false} NoSystemToDrop(h: seq<Message>)
    requires forall k | 0 <= k < |h| :: h[k].role != System
    ensures WithoutSystem(h) == h
  {
    if h != [] {
      NoSystemToDrop(h[1..]);
    }
  }

  /** Dropping system messages, as some providers require, breaks no chain. */
  lemma {:induction false} WholeWithoutSystem(h: seq<Message>)
    requires Whole(h)
    ensures Whole(WithoutSystem(h))
    decreases |h|
  {
    if h != [] {
      var chain, rest := h[..Span(h[0])], h[Span(h[0])..];
      assert h == chain + rest;
      WithoutSystemConcat(chain, rest);
      WholeWithoutSystem(rest);
      ChainWithoutSystem(h);
      WholeConcat(WithoutSystem(chain), WithoutSystem(rest));
    }
  }

  lemma ChainWithoutSystem(h: seq<Message>)
    requires LeadsChain(h)
    ensures Whole(WithoutSystem(h[..Span(h[0])]))
  {
    var chain := h[..Span(h[0])];
    if h[0].role == System {
      assert chain == [h[0]];
      assert WithoutSystem(chain) == WithoutSystem([]);
    } else {
      forall k | 0 <= k < |chain| ensures chain[k].role != System {
        if k > 0 { ResultsFollow(h, k); }
      }
      NoSystemToDrop(chain);
      LeadsChainCut(h, |chain|);
      assert Whole(chain[|chain|..]);
    }
  }
}
