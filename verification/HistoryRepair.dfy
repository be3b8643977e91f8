/** The last step before a request: calls that lost their results are stripped. */
module HistoryRepair {
  import opened Messages
  import opened Transcript

  // The ids answered somewhere in a history.
  function ResultIds(h: seq<Message>): set<string> {
    if h == [] then {}
    else (if h[0].role == Tool && h[0].callId != "" then {h[0].callId} else {}) + ResultIds(h[1..])
  }

  // Every call that has an id is answered; calls without one cannot be missed.
  predicate AllAnswered(calls: seq<Call>, answered: set<string>) {
    forall k | 0 <= k < |calls| :: calls[k].id != "" ==> calls[k].id in answered
  }

  predicate NeedsRepair(m: Message, later: set<string>) {
    m.role == Assistant && !AllAnswered(m.toolCalls, later)
  }

  function Repaired(m: Message, later: set<string>): Message {
    if NeedsRepair(m, later) then m.(toolCalls := []) else m
  }

  function Sanitized(h: seq<Message>): (r: seq<Message>)
    ensures |r| == |h|
  {
    if h == [] then [] else [Repaired(h[0], ResultIds(h[1..]))] + Sanitized(h[1..])
  }

  function Repairs(h: seq<Message>): nat {
    if h == [] then 0 else (if NeedsRepair(h[0], ResultIds(h[1..])) then 1 else 0) + Repairs(h[1..])
  }

  function Reversed(h: seq<Message>): seq<Message> {
    if h == [] then [] else Reversed(h[1..]) + [h[0]]
  }

  lemma {:induction false} ReversedMore(h: seq<Message>, m: Message)
    ensures Reversed(h + [m]) == [m] + Reversed(h)
  {
    if h != [] {
      assert (h + [m])[1..] == h[1..] + [m];
      ReversedMore(h[1..], m);
    }
  }

  lemma {:induction false} ReversedTwice(h: seq<Message>)
    ensures Reversed(Reversed(h)) == h
  {
    if h != [] {
      ReversedTwice(h[1..]);
      ReversedMore(Reversed(h[1..]), h[0]);
    }
  }

  method SanitizeHistoryToolChains(history: seq<Message>) returns (sanitized: seq<Message>, repaired: nat)
    ensures sanitized == Sanitized(history) && repaired == Repairs(history)
  {
    if history == [] {
      return [], 0;
    }
    var available: set<string> := {};
    var reversed: seq<Message> := [];
    repaired := 0;
    for i := |history| downto 0
      invariant available == ResultIds(history[i..])
      invariant reversed == Reversed(Sanitized(history[i..])) && repaired == Repairs(history[i..])
    {
      var current := history[i];
      assert history[i..][0] == current && history[i..][1..] == history[i + 1..];
      if current.role == Tool {
        if current.callId != "" {
          available := available + {current.callId};
        }
      } else if current.role == Assistant && current.toolCalls != [] {
        if !AllAnswered(current.toolCalls, available) {
          current := current.(toolCalls := []);
          repaired := repaired + 1;
        }
      }
      reversed := reversed + [current];
    }
    assert history[0..] == history;
    ReversedTwice(Sanitized(history));
    sanitized := Reversed(reversed);
  }

  lemma {:induction false} SanitizedAt(h: seq<Message>, i: nat)
    requires i < |h|
    ensures Sanitized(h)[i] == Repaired(h[i], ResultIds(h[i + 1..]))
  {
    if i > 0 {
      SanitizedAt(h[1..], i - 1);
      assert h[1..][i..] == h[i + 1..];
    }
  }

  // Repair never touches a result.
  lemma {:induction false} SanitizedKeepsResults(h: seq<Message>)
    ensures ResultIds(Sanitized(h)) == ResultIds(h)
  {
    if h != [] {
      SanitizedKeepsResults(h[1..]);
    }
  }

  lemma {:induction false} SanitizedTail(h: seq<Message>, i: nat)
    requires i <= |h|
    ensures Sanitized(h)[i..] == Sanitized(h[i..])
  {
    if i == 0 {
      assert h[0..] == h && Sanitized(h)[0..] == Sanitized(h);
    } else {
      SanitizedTail(h[1..], i - 1);
      assert h[1..][i - 1..] == h[i..] && Sanitized(h)[i..] == Sanitized(h[1..])[i - 1..];
    }
  }

  /** On any history, each remaining call of an assistant message is answered later. */
  lemma SanitizedIsAnswered(h: seq<Message>, i: nat)
    requires i < |h|
    ensures var r := Sanitized(h); r[i].role == Assistant ==> AllAnswered(r[i].toolCalls, ResultIds(r[i + 1..]))
  {
    SanitizedAt(h, i);
    SanitizedTail(h, i + 1);
    SanitizedKeepsResults(h[i + 1..]);
  }

  /** A message changes exactly if it is an assistant message with a call that nothing later answers,
      and then it loses its calls and nothing else. */
  lemma StrippedIsUnanswered(h: seq<Message>, i: nat)
    requires i < |h|
    ensures Sanitized(h)[i] != h[i] <==> h[i].role == Assistant && !AllAnswered(h[i].toolCalls, ResultIds(h[i + 1..]))
    ensures Sanitized(h)[i] != h[i] ==> Sanitized(h)[i] == h[i].(toolCalls := [])
  {
    SanitizedAt(h, i);
  }

  /** A second repair finds nothing to do. */
  lemma {:induction false} SanitizedTwice(h: seq<Message>)
    ensures Sanitized(Sanitized(h)) == Sanitized(h) && Repairs(Sanitized(h)) == 0
  {
    if h != [] {
      SanitizedTwice(h[1..]);
      SanitizedKeepsResults(h[1..]);
      assert Sanitized(h)[1..] == Sanitized(h[1..]);
    }
  }

  // Nothing to repair means nothing changed.
  lemma {:induction false} NoRepairs(h: seq<Message>)
    requires forall i | 0 <= i < |h| && h[i].role == Assistant :: AllAnswered(h[i].toolCalls, ResultIds(h[i + 1..]))
    ensures Sanitized(h) == h && Repairs(h) == 0
  {
    if h != [] {
      assert h[0 + 1..] == h[1..];
      forall i | 0 <= i < |h[1..]| && h[1..][i].role == Assistant
        ensures AllAnswered(h[1..][i].toolCalls, ResultIds(h[1..][i + 1..]))
      {
        assert h[1..][i + 1..] == h[i + 1 + 1..] && h[1..][i] == h[i + 1];
      }
      NoRepairs(h[1..]);
    }
  }

  lemma {:induction false} ResultIdsConcat(a: seq<Message>, b: seq<Message>)
    ensures ResultIds(a + b) == ResultIds(a) + ResultIds(b)
  {
    if a == [] {
      assert a + b == b;
    } else {
      assert (a + b)[1..] == a[1..] + b;
      ResultIdsConcat(a[1..], b);
    }
  }

  lemma {:induction false} AnswersGiveIds(calls: seq<Call>, results: seq<Message>)
    requires Answers(calls, results)
    ensures AllAnswered(calls, ResultIds(results))
  {
    if calls != [] {
      AnswersGiveIds(calls[1..], results[1..]);
      forall k | 0 <= k < |calls| && calls[k].id != "" ensures calls[k].id in ResultIds(results) {
        if k > 0 { assert calls[1..][k - 1] == calls[k]; }
      }
    }
  }

  /** A transcript of whole chains needs no repair. */
  lemma {:induction false} WholeNeedsNoRepair(h: seq<Message>)
    requires Whole(h)
    ensures Sanitized(h) == h && Repairs(h) == 0
    decreases |h|
  {
    forall i | 0 <= i < |h| && h[i].role == Assistant ensures AllAnswered(h[i].toolCalls, ResultIds(h[i + 1..])) {
      WholeIsAnswered(h, i);
    }
    NoRepairs(h);
  }

  lemma {:induction false} WholeIsAnswered(h: seq<Message>, i: nat)
    requires Whole(h) && i < |h| && h[i].role != Tool
    ensures AllAnswered(h[i].toolCalls, ResultIds(h[i + 1..]))
    decreases |h|
  {
    var span := Span(h[0]);
    if i == 0 {
      FirstIsAnswered(h);
    } else {
      if i < span { ResultsFollow(h, i); }
      WholeIsAnswered(h[span..], i - span);
      TailOfTail(h, span, i);
    }
  }

  lemma FirstIsAnswered(h: seq<Message>)
    requires LeadsChain(h)
    ensures AllAnswered(h[0].toolCalls, ResultIds(h[1..]))
  {
    var span := Span(h[0]);
    AnswersGiveIds(h[0].toolCalls, h[1..span]);
    ResultIdsConcat(h[1..span], h[span..]);
    assert h[1..] == h[1..span] + h[span..];
  }

  lemma TailOfTail(h: seq<Message>, span: nat, i: nat)
    requires span <= i < |h|
    ensures h[span..][i - span + 1..] == h[i + 1..] && h[span..][i - span] == h[i]
  {
  }
}
