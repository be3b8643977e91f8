/** Which messages of a compacted prefix are summarised in the recap. */
module RecapSelection {
  import opened Messages

  predicate HighSignal(m: Message) {
    m.role == User || (m.role == Assistant && m.toolCalls == [])
  }

  // Positions of high-signal messages, in order.
  function HighPositions(ms: seq<Message>): (ps: seq<nat>)
    ensures forall k | 0 <= k < |ps| :: ps[k] < |ms| && HighSignal(ms[ps[k]])
    ensures forall j, k | 0 <= j < k < |ps| :: ps[j] < ps[k]
    ensures forall i | 0 <= i < |ms| && HighSignal(ms[i]) :: i in ps
  {
    if ms == [] then []
    else
      var n := |ms| - 1;
      HighPositions(ms[..n]) + if HighSignal(ms[n]) then [n] else []
  }

  // Python's list[-n:]; for n == 0 that is the whole list.
  function LastOf<T>(s: seq<T>, n: nat): seq<T> {
    if n == 0 || |s| <= n then s else s[|s| - n..]
  }

  // The elements at some positions, in order.
  function Pick(ms: seq<Message>, positions: set<nat>): seq<Message> {
    if ms == [] then []
    else
      var n := |ms| - 1;
      Pick(ms[..n], positions) + if n in positions then [ms[n]] else []
  }

  function SetOf(ps: seq<nat>): set<nat> {
    set p | p in ps
  }

  ghost predicate Within(positions: set<nat>, bound: nat) {
    forall p | p in positions :: p < bound
  }

  ghost function HighAmong(ms: seq<Message>, positions: set<nat>): set<nat>
    requires Within(positions, |ms|)
  {
    set p | p in positions && HighSignal(ms[p])
  }

  ghost predicate HoldsAllHigh(ms: seq<Message>, positions: set<nat>) {
    forall p: nat | p < |ms| && HighSignal(ms[p]) :: p in positions
  }

  // A dropped high-signal message is earlier than every kept message, and those are all high-signal.
  ghost predicate Preferred(ms: seq<Message>, kept: set<nat>)
    requires Within(kept, |ms|)
  {
    forall d: nat, k: nat | d < |ms| && d !in kept && k in kept && HighSignal(ms[d]) :: HighSignal(ms[k]) && d < k
  }

  // A dropped low-signal message is earlier than every kept low-signal one.
  ghost predicate LatestFill(ms: seq<Message>, kept: set<nat>)
    requires Within(kept, |ms|)
  {
    forall d: nat, k: nat | d < |ms| && d !in kept && k in kept && !HighSignal(ms[d]) && !HighSignal(ms[k]) :: d < k
  }

  /** A long prefix is reduced to its head and exactly as many messages of the rest as the tail count
      asks for: the latest high-signal ones, filled up with the latest others. `kept` are their
      positions after the head. With a tail count of zero all high-signal messages stay, because
      list[-0:] is the whole list. */
  method SelectRecapMessages(prefix: seq<Message>, headCount: nat, tailCount: nat)
    returns (selected: seq<Message>, ghost kept: set<nat>)
    ensures |prefix| <= headCount + tailCount ==> selected == prefix
    ensures |prefix| > headCount + tailCount ==>
      var rest := prefix[headCount..];
      && selected == prefix[..headCount] + Pick(rest, kept)
      && Within(kept, |rest|)
      && (tailCount >= 1 ==> |kept| == tailCount && Preferred(rest, kept) && LatestFill(rest, kept))
      && (tailCount == 0 ==> forall p: nat | p < |rest| :: p in kept <==> HighSignal(rest[p]))
  {
    kept := {};
    if |prefix| <= headCount + tailCount {
      return prefix, kept;
    }
    var head := prefix[..headCount];
    var rest := prefix[headCount..];
    var positions := SetOf(LastOf(HighPositions(rest), tailCount));
    ChosenSet(rest, tailCount);
    positions := FillFromEnd(rest, positions, tailCount);
    kept := positions;
    selected := head + Pick(rest, positions);
  }

  // The loop that tops the chosen positions up from the end of the list.
  method FillFromEnd(rest: seq<Message>, chosen: set<nat>, tailCount: nat) returns (positions: set<nat>)
    requires |rest| >= tailCount && Within(chosen, |rest|)
    requires forall p | p in chosen :: HighSignal(rest[p])
    requires |chosen| < tailCount ==> HoldsAllHigh(rest, chosen)
    requires tailCount >= 1 ==> |chosen| <= tailCount && Preferred(rest, chosen)
    ensures Within(positions, |rest|)
    ensures tailCount == 0 ==> positions == chosen
    ensures tailCount >= 1 ==> |positions| == tailCount && Preferred(rest, positions) && LatestFill(rest, positions)
  {
    positions := chosen;
    var index := |rest|;
    while index > 0 && |positions| < tailCount
      invariant 0 <= index <= |rest| && Within(positions, |rest|) && chosen <= positions
      invariant index == |rest| ==> positions == chosen
      invariant index < |rest| ==> HoldsAllHigh(rest, positions) && |positions| <= tailCount
      invariant |positions| < tailCount ==> HoldsAllHigh(rest, positions)
      invariant forall p: nat | p in positions && p !in chosen :: index <= p
      invariant forall p: nat | index <= p < |rest| :: p in positions
    {
      index := index - 1;
      positions := positions + {index};
    }
    if |positions| < tailCount {
      AllPositions(positions, |rest|);
    }
  }

  lemma ChosenSet(rest: seq<Message>, tailCount: nat)
    ensures var positions := SetOf(LastOf(HighPositions(rest), tailCount));
            && Within(positions, |rest|)
            && (forall p | p in positions :: HighSignal(rest[p]))
            && (|positions| < tailCount || tailCount == 0 ==> HoldsAllHigh(rest, positions))
            && (tailCount >= 1 ==> |positions| <= tailCount && Preferred(rest, positions))
  {
    var high := HighPositions(rest);
    var chosen := LastOf(high, tailCount);
    DistinctSize(chosen);
    LastOfTakes(high, tailCount);
    forall d: nat, k: nat | d < |rest| && d !in SetOf(chosen) && k in SetOf(chosen) && HighSignal(rest[d]) ensures d < k {
      LastOfLater(high, tailCount, d, k);
    }
  }

  lemma LastOfTakes(s: seq<nat>, n: nat)
    ensures forall x | x in LastOf(s, n) :: x in s
    ensures n >= 1 ==> |LastOf(s, n)| <= n
    ensures |LastOf(s, n)| < n || n == 0 ==> LastOf(s, n) == s
  {
  }

  lemma LastOfLater(s: seq<nat>, n: nat, d: nat, k: nat)
    requires forall i, j | 0 <= i < j < |s| :: s[i] < s[j]
    requires d in s && d !in LastOf(s, n) && k in LastOf(s, n)
    ensures d < k
  {
    var last := LastOf(s, n);
    var cut := |s| - |last|;
    var i, j :| 0 <= i < |s| && s[i] == d && 0 <= j < |last| && last[j] == k;
    assert s[cut + j] == k;
    SuffixHolds(s, cut, i);
  }

  lemma SuffixHolds(s: seq<nat>, cut: nat, i: nat)
    requires i < |s| && cut <= |s|
    ensures cut <= i ==> s[i] in s[cut..]
  {
    if cut <= i {
      assert s[cut..][i - cut] == s[i];
    }
  }

  lemma {:induction false} DistinctSize(ps: seq<nat>)
    requires forall j, k | 0 <= j < k < |ps| :: ps[j] < ps[k]
    ensures |SetOf(ps)| == |ps|
  {
    if ps == [] {
      assert SetOf(ps) == {};
    } else {
      var n := |ps| - 1;
      DistinctSize(ps[..n]);
      SetOfMore(ps[..n], ps[n]);
      assert ps == ps[..n] + [ps[n]];
    }
  }

  lemma SetOfMore(ps: seq<nat>, p: nat)
    ensures SetOf(ps + [p]) == SetOf(ps) + {p}
  {
  }

  lemma {:induction false} AllPositions(positions: set<nat>, n: nat)
    requires forall p: nat | p < n :: p in positions
    ensures |positions| >= n
  {
    if n > 0 {
      var fewer := positions - {n - 1};
      assert forall p: nat | p < n - 1 :: p in fewer;
      AllPositions(fewer, n - 1);
    }
  }

  // A pick is as long as the set it is made of.
  lemma {:induction false} PickLength(ms: seq<Message>, positions: set<nat>)
    requires Within(positions, |ms|)
    ensures |Pick(ms, positions)| == |positions|
  {
    if ms == [] {
      assert positions == {};
    } else {
      var n := |ms| - 1;
      PickIgnores(ms[..n], positions, n);
      PickLength(ms[..n], positions - {n});
    }
  }

  lemma {:induction false} PickIgnores(ms: seq<Message>, positions: set<nat>, n: nat)
    requires |ms| <= n
    ensures Pick(ms, positions) == Pick(ms, positions - {n})
  {
    if ms != [] {
      PickIgnores(ms[..|ms| - 1], positions, n);
    }
  }

  // The position in a pick of the element at position p.
  ghost function RankIn(positions: set<nat>, p: nat): nat {
    |set q | q in positions && q < p|
  }

  /** A pick holds the elements at its positions, each in its place, and no others. */
  lemma {:induction false} PickAt(ms: seq<Message>, positions: set<nat>, p: nat)
    requires Within(positions, |ms|) && p in positions
    ensures |Pick(ms, positions)| == |positions|
    ensures RankIn(positions, p) < |positions| && Pick(ms, positions)[RankIn(positions, p)] == ms[p]
    decreases |ms|
  {
    var n := |ms| - 1;
    var fewer := positions - {n};
    PickLength(ms, positions);
    PickIgnores(ms[..n], positions, n);
    PickLength(ms[..n], fewer);
    if p == n {
      assert (set q | q in positions && q < p) == fewer;
    } else {
      PickAt(ms[..n], fewer, p);
      assert (set q | q in positions && q < p) == set q | q in fewer && q < p;
    }
  }

  /** No other choice of as many messages holds more high-signal ones. */
  lemma PreferredIsOptimal(ms: seq<Message>, kept: set<nat>, other: set<nat>)
    requires Within(kept, |ms|) && Preferred(ms, kept)
    requires Within(other, |ms|) && |other| == |kept|
    ensures |HighAmong(ms, other)| <= |HighAmong(ms, kept)|
  {
    if d :| 0 <= d < |ms| && d !in kept && HighSignal(ms[d]) {
      forall k | k in kept ensures HighSignal(ms[k]) {
        assert HighSignal(ms[d]) ==> HighSignal(ms[k]) && d < k;
      }
      assert HighAmong(ms, kept) == kept;
      SubsetSize(HighAmong(ms, other), other);
    } else {
      SubsetSize(HighAmong(ms, other), HighAmong(ms, kept));
    }
  }

  /** No tool result, system message or mere request for tools is kept at the price of what a user has
      said or the assistant has concluded. */
  lemma ConclusionsFirst(ms: seq<Message>, kept: set<nat>, d: nat, k: nat)
    requires Within(kept, |ms|) && Preferred(ms, kept) && d < |ms| && d !in kept && k < |ms|
    requires ms[d].role == User || (ms[d].role == Assistant && ms[d].toolCalls == [])
    requires ms[k].role !in {User, Assistant} || (ms[k].role == Assistant && ms[k].toolCalls != [])
    ensures k !in kept
  {
  }

  lemma {:induction false} SubsetSize<T>(a: set<T>, b: set<T>)
    requires a <= b
    ensures |a| <= |b|
  {
    if a != {} {
      var x :| x in a;
      SubsetSize(a - {x}, b - {x});
    }
  }
}
