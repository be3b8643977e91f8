/** Some chat templates accept a system message only in first place: all of them are merged there. */
module SystemMessages {
  import opened Messages
  import opened Transcript
  import Text

  function FirstSystem(h: seq<Message>): (m: Message)
    requires SystemContents(h) != []
    ensures m.role == System && m in h
  {
    if h[0].role == System then h[0] else FirstSystem(h[1..])
  }

  // There is nothing to merge: no system message, or only the first message is one.
  predicate InPlace(h: seq<Message>) {
    SystemContents(h) == [] || (|SystemContents(h)| == 1 && h[0].role == System)
  }

  function Coalesced(h: seq<Message>): seq<Message> {
    if InPlace(h) then h
    else [FirstSystem(h).(content := Text.Join("\n\n", Text.NonBlank(SystemContents(h))))] + WithoutSystem(h)
  }

  ghost predicate NoSystemFrom(h: seq<Message>, k: nat) {
    forall i | k <= i < |h| :: h[i].role != System
  }

  lemma {:induction false} NoContents(h: seq<Message>)
    ensures SystemContents(h) == [] <==> NoSystemFrom(h, 0)
  {
    if h != [] {
      NoContents(h[1..]);
      assert forall i | 1 <= i < |h| :: h[1..][i - 1] == h[i];
    }
  }

  lemma {:induction false} WithoutSystemHasNone(h: seq<Message>)
    ensures NoSystemFrom(WithoutSystem(h), 0)
  {
    if h != [] {
      WithoutSystemHasNone(h[1..]);
    }
  }

  /** Afterwards a system message can only be the first message, its text is that of all system
      messages in order, and the other messages are as they were. */
  lemma CoalescedIsStrict(h: seq<Message>)
    ensures NoSystemFrom(Coalesced(h), 1) && WithoutSystem(Coalesced(h)) == WithoutSystem(h)
    ensures !InPlace(h) ==> Coalesced(h)[0].role == System
                            && Coalesced(h)[0].content == Text.Join("\n\n", Text.NonBlank(SystemContents(h)))
  {
    if InPlace(h) {
      if h != [] {
        NoContents(h);
        NoContents(h[1..]);
        assert forall i | 1 <= i < |h| :: h[1..][i - 1] == h[i];
      }
    } else {
      WithoutSystemHasNone(h);
      NoSystemToDrop(WithoutSystem(h));
      assert Coalesced(h)[1..] == WithoutSystem(h);
    }
  }

  /** Merging twice is merging once. */
  lemma CoalescedTwice(h: seq<Message>)
    ensures Coalesced(Coalesced(h)) == Coalesced(h)
  {
    if !InPlace(h) {
      CoalescedIsStrict(h);
      var r := Coalesced(h);
      WithoutSystemHasNone(h);
      assert r[1..] == WithoutSystem(h);
      NoContents(r[1..]);
    }
  }

  lemma {:induction false} SystemHasNoCalls(h: seq<Message>, i: nat)
    requires Whole(h) && i < |h| && h[i].role == System
    ensures h[i].toolCalls == []
    decreases |h|
  {
    var span := Span(h[0]);
    if 0 < i < span {
      ResultsFollow(h, i);
    } else if i >= span {
      SystemHasNoCalls(h[span..], i - span);
    }
  }

  /** Merging system messages breaks no tool chain. */
  lemma CoalescedIsWhole(h: seq<Message>)
    requires Whole(h)
    ensures Whole(Coalesced(h))
  {
    if !InPlace(h) {
      var first := FirstSystem(h);
      var i :| 0 <= i < |h| && h[i] == first;
      SystemHasNoCalls(h, i);
      var merged := Coalesced(h)[0];
      assert [merged][1..Span(merged)] == [] && [merged][Span(merged)..] == [];
      WholeWithoutSystem(h);
      WholeConcat([merged], WithoutSystem(h));
    }
  }
}
