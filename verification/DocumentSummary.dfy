/** Summarising a long document: even sampling of its chunks, then map-reduce over batches. */
module DocumentSummary {
  import opened Basics

  const MAX_CHUNKS := 64
  const BATCH_SIZE := 8

  // --- Even sampling ---

  // The integer nearest to a / b, ties going to the even one.
  function RoundHalfEven(a: nat, b: nat): (r: nat)
    requires b > 0
    ensures 2 * a - b <= 2 * (b * r) <= 2 * a + b
    ensures 2 * (b * r) == 2 * a - b || 2 * (b * r) == 2 * a + b ==> r % 2 == 0
  {
    var q, m := a / b, a % b;
    Divided(a, b, q, m);
    Parity(q);
    if 2 * m < b || (2 * m == b && q % 2 == 0) then q else q + 1
  }

  lemma Divided(a: nat, b: nat, q: nat, m: nat)
    requires b > 0 && q == a / b && m == a % b
    ensures b * q == a - m && m < b
    ensures b * (q + 1) == a - m + b
  {
  }

  lemma Parity(q: nat)
    ensures q % 2 != 0 ==> (q + 1) % 2 == 0
  {
  }

  // The elements of a set among the n numbers from a given one, in increasing order.
  function Ascending(s: set<nat>, from: nat, n: nat): seq<nat>
    decreases n
  {
    if n == 0 then []
    else (if from in s then [from] else []) + Ascending(s, from + 1, n - 1)
  }

  // The i-th of n positions spread over 0..last.
  function Spread(last: nat, n: nat, i: nat): nat
    requires n >= 2
  {
    RoundHalfEven(i * last, n - 1)
  }

  function Positions(last: nat, n: nat): seq<nat>
    requires n >= 2
  {
    Ascending(set i | 0 <= i < n :: Spread(last, n, i), 0, last + 1)
  }

  function At<T>(chunks: seq<T>, indices: seq<nat>): (r: seq<T>)
    requires forall k | 0 <= k < |indices| :: indices[k] < |chunks|
    ensures |r| == |indices| && forall k | 0 <= k < |r| :: r[k] == chunks[indices[k]]
  {
    seq(|indices|, k requires 0 <= k < |indices| => chunks[indices[k]])
  }

  function SampleEvenly<T>(chunks: seq<T>, maxChunks: int): seq<T> {
    if maxChunks <= 0 || |chunks| <= maxChunks then chunks
    else if maxChunks == 1 then [chunks[0]]
    else
      var indices := Positions(|chunks| - 1, maxChunks);
      PositionsAreEven(|chunks| - 1, maxChunks);
      At(chunks, indices)
  }

  // --- Arithmetic ---

  lemma Distribute(b: int, x: int, y: int)
    ensures b * (x - y) == b * x - b * y && b * (x + y) == b * x + b * y
  {
  }

  lemma Multiple(b: int, x: int)
    requires b > 0 && x >= 1
    ensures b * x >= b
  {
  }

  lemma AtMost(b: int, x: int, y: int)
    requires b > 0 && b * x < b * y + b
    ensures x <= y
  {
    Distribute(b, x, y);
    if x > y { Multiple(b, x - y); }
  }

  lemma Reassociate(i: int, b: int, k: int)
    ensures i * (b * k) == b * (i * k) && (i * b) * k == b * (i * k)
  {
  }

  lemma Times(a: nat, b: nat, p: nat)
    requires a >= b
    ensures a * p >= b * p
  {
  }

  // A gap of d positions where the exact one would be last / b.
  lemma GapBounds(b: nat, last: nat, d: int)
    requires b > 0 && last - b <= b * d <= last + b
    ensures d <= last / b + 1
    ensures last % b != 0 ==> d >= last / b
    ensures last > b ==> d >= 1
  {
    var k, m := last / b, last % b;
    Divided(last, b, k, m);
    AtMost(b, d, k + 1);
    if m != 0 { AtMost(b, k, d); }
    if last > b { AtMost(b, 1, d); }
  }

  // p and q are nearest to a / b and (a + last) / b.
  lemma GapOfNearest(b: nat, last: nat, a: nat, p: nat, q: nat)
    requires 2 * a - b <= 2 * (b * p) <= 2 * a + b
    requires 2 * (a + last) - b <= 2 * (b * q) <= 2 * (a + last) + b
    ensures last - b <= b * (q - p) <= last + b
  {
    Distribute(b, q, p);
  }

  lemma NearestToMultiple(b: nat, x: nat, a: nat, r: nat)
    requires b > 0 && a == b * x && 2 * a - b <= 2 * (b * r) <= 2 * a + b
    ensures r == x
  {
    AtMost(b, r, x);
    AtMost(b, x, r);
  }

  lemma ExactSpread(last: nat, n: nat, i: nat)
    requires n >= 2 && last % (n - 1) == 0
    ensures Spread(last, n, i) == i * (last / (n - 1))
  {
    var b, k := n - 1, last / (n - 1);
    Divided(last, b, k, 0);
    Reassociate(i, b, k);
    NearestToMultiple(b, i * k, i * last, Spread(last, n, i));
  }

  lemma NextProduct(i: nat, x: nat)
    ensures (i + 1) * x == i * x + x
  {
  }

  lemma ExactGap(last: nat, n: nat, i: nat)
    requires n >= 2 && last % (n - 1) == 0
    ensures Spread(last, n, i + 1) - Spread(last, n, i) == last / (n - 1)
  {
    ExactSpread(last, n, i);
    ExactSpread(last, n, i + 1);
    NextProduct(i, last / (n - 1));
  }

  lemma GapProduct(last: nat, n: nat, i: nat)
    requires n >= 2
    ensures last - (n - 1) <= (n - 1) * (Spread(last, n, i + 1) - Spread(last, n, i)) <= last + (n - 1)
  {
    NextProduct(i, last);
    GapOfNearest(n - 1, last, i * last, Spread(last, n, i), Spread(last, n, i + 1));
  }

  /** Neighbouring positions are floor(last / (n - 1)) apart, or one more. */
  lemma SpreadGap(last: nat, n: nat, i: nat)
    requires 2 <= n <= last
    ensures last / (n - 1) <= Spread(last, n, i + 1) - Spread(last, n, i) <= last / (n - 1) + 1
    ensures Spread(last, n, i) < Spread(last, n, i + 1)
  {
    GapProduct(last, n, i);
    GapBounds(n - 1, last, Spread(last, n, i + 1) - Spread(last, n, i));
    if last % (n - 1) == 0 { ExactGap(last, n, i); }
  }

  lemma SpreadEnds(last: nat, n: nat)
    requires n >= 2
    ensures Spread(last, n, 0) == 0 && Spread(last, n, n - 1) == last
  {
    NearestToMultiple(n - 1, 0, 0 * last, Spread(last, n, 0));
    NearestToMultiple(n - 1, last, (n - 1) * last, Spread(last, n, n - 1));
  }

  lemma {:induction false} SpreadIncreasing(last: nat, n: nat, i: nat, j: nat)
    requires 2 <= n <= last && i < j
    ensures Spread(last, n, i) < Spread(last, n, j)
    decreases j
  {
    SpreadGap(last, n, j - 1);
    if i < j - 1 { SpreadIncreasing(last, n, i, j - 1); }
  }

  ghost predicate Increasing(s: seq<nat>) {
    forall i, j | 0 <= i < j < |s| :: s[i] < s[j]
  }

  lemma {:induction false} AscendingSorts(s: set<nat>, from: nat, n: nat)
    ensures Increasing(Ascending(s, from, n))
    ensures forall x :: x in Ascending(s, from, n) <==> (x in s && from <= x < from + n)
    decreases n
  {
    if n > 0 {
      AscendingSorts(s, from + 1, n - 1);
      var rest := Ascending(s, from + 1, n - 1);
      forall k | 0 <= k < |rest| ensures from < rest[k] {
        assert rest[k] in rest;
      }
    }
  }

  // An increasing list is determined by what it contains.
  lemma {:induction false} IncreasingIsUnique(a: seq<nat>, b: seq<nat>)
    requires Increasing(a) && Increasing(b) && forall x :: x in a <==> x in b
    ensures a == b
  {
    if a == [] {
      FirstIn(b);
    } else {
      assert a[0] in a && a[0] in b;
      assert b[0] in b && b[0] in a;
      SameFirst(a, b);
      forall x ensures x in a[1..] <==> x in b[1..] {
        InTail(a, x);
        InTail(b, x);
      }
      IncreasingIsUnique(a[1..], b[1..]);
      assert a == [a[0]] + a[1..] && b == [b[0]] + b[1..];
    }
  }

  lemma FirstIn(b: seq<nat>)
    ensures b != [] ==> b[0] in b
  {
  }

  lemma SameFirst(a: seq<nat>, b: seq<nat>)
    requires Increasing(a) && Increasing(b) && a != [] && b != [] && a[0] in b && b[0] in a
    ensures a[0] == b[0]
  {
    var i :| 0 <= i < |b| && b[i] == a[0];
    var j :| 0 <= j < |a| && a[j] == b[0];
  }

  lemma InTail(a: seq<nat>, x: nat)
    requires Increasing(a) && a != []
    ensures x in a[1..] <==> x in a && x != a[0]
  {
    if x in a && x != a[0] {
      var i :| 0 <= i < |a| && a[i] == x;
      assert a[1..][i - 1] == x;
    }
  }

  // n positions, strictly increasing from 0 to last, each the nearest integer to its exact place.
  ghost predicate EvenlySpread(ps: seq<nat>, last: nat, n: nat)
    requires n >= 2
  {
    && |ps| == n && ps[0] == 0 && ps[n - 1] == last && Increasing(ps)
    && (forall i | 0 <= i < n :: ps[i] == Spread(last, n, i) && ps[i] <= last)
    && forall i | 0 <= i < n - 1 :: last / (n - 1) <= ps[i + 1] - ps[i] <= last / (n - 1) + 1
  }

  lemma PositionsAreEven(last: nat, n: nat)
    requires 2 <= n <= last
    ensures EvenlySpread(Positions(last, n), last, n)
  {
    var chosen := set i | 0 <= i < n :: Spread(last, n, i);
    var listed := seq(n, i requires 0 <= i < n => Spread(last, n, i));
    SpreadEnds(last, n);
    forall i, j | 0 <= i < j < n ensures listed[i] < listed[j] {
      SpreadIncreasing(last, n, i, j);
    }
    AscendingSorts(chosen, 0, last + 1);
    SameElements(last, n, chosen, listed);
    IncreasingIsUnique(Positions(last, n), listed);
    forall i | 0 <= i < n - 1 ensures last / (n - 1) <= listed[i + 1] - listed[i] <= last / (n - 1) + 1 {
      SpreadGap(last, n, i);
    }
  }

  lemma SameElements(last: nat, n: nat, chosen: set<nat>, listed: seq<nat>)
    requires 2 <= n <= last && chosen == set i | 0 <= i < n :: Spread(last, n, i)
    requires |listed| == n && forall i | 0 <= i < n :: listed[i] == Spread(last, n, i)
    ensures forall x: nat :: x in listed <==> x in chosen && x < last + 1
  {
    SpreadEnds(last, n);
    forall x | x in chosen ensures x in listed && x <= last {
      var i :| 0 <= i < n && x == Spread(last, n, i);
      assert listed[i] == x;
      if i < n - 1 { SpreadIncreasing(last, n, i, n - 1); }
    }
  }

  /** With more chunks than a budget of at least two, exactly that many are kept, in order and evenly
      spread from the first to the last; a budget of one keeps the first; all are kept otherwise. */
  lemma SampleIsEven<T>(chunks: seq<T>, budget: int)
    ensures budget <= 0 || |chunks| <= budget ==> SampleEvenly(chunks, budget) == chunks
    ensures budget == 1 < |chunks| ==> SampleEvenly(chunks, budget) == [chunks[0]]
    ensures 2 <= budget < |chunks| ==>
      var ps := Positions(|chunks| - 1, budget);
      && EvenlySpread(ps, |chunks| - 1, budget)
      && |SampleEvenly(chunks, budget)| == budget
      && forall i | 0 <= i < budget :: SampleEvenly(chunks, budget)[i] == chunks[ps[i]]
  {
    if 2 <= budget < |chunks| { PositionsAreEven(|chunks| - 1, budget); }
  }

  // --- Map and reduce ---

  // What a summary was made from: a chunk as it is, or one model call over several parts.
  datatype Summary = Section(text: string) | Call(inputs: seq<Summary>)

  function Sections(chunks: seq<string>): (r: seq<Summary>)
    ensures |r| == |chunks| && forall i | 0 <= i < |r| :: r[i] == Section(chunks[i])
  {
    seq(|chunks|, i requires 0 <= i < |chunks| => Section(chunks[i]))
  }

  function Leaves(s: Summary): seq<string>
    decreases s
  {
    match s case Section(text) => [text] case Call(inputs) => LeavesOf(inputs)
  }

  function LeavesOf(items: seq<Summary>): seq<string>
    decreases items
  {
    if items == [] then [] else Leaves(items[0]) + LeavesOf(items[1..])
  }

  function Calls(s: Summary): nat
    decreases s
  {
    match s case Section(_) => 0 case Call(inputs) => 1 + CallsOf(inputs)
  }

  function CallsOf(items: seq<Summary>): nat
    decreases items
  {
    if items == [] then 0 else Calls(items[0]) + CallsOf(items[1..])
  }

  // All chunks lie exactly h calls deep, and no call reads nothing or more than size parts.
  ghost predicate Balanced(s: Summary, size: nat, h: nat)
    decreases h
  {
    if h == 0 then s.Section?
    else
      && s.Call? && 0 < |s.inputs| <= size
      && forall i | 0 <= i < |s.inputs| :: Balanced(s.inputs[i], size, h - 1)
  }

  ghost predicate AllBalanced(items: seq<Summary>, size: nat, h: nat) {
    forall i | 0 <= i < |items| :: Balanced(items[i], size, h)
  }

  function Batches(items: seq<Summary>, size: nat): seq<Summary>
    requires size > 0
    decreases |items|
  {
    if items == [] then []
    else if |items| <= size then [Call(items)]
    else [Call(items[..size])] + Batches(items[size..], size)
  }

  // n / size, rounded up: the length of range(0, n, size).
  function Ceiling(n: nat, size: nat): nat
    requires size > 0
  {
    if n == 0 then 0 else if n <= size then 1 else 1 + Ceiling(n - size, size)
  }

  function Power(size: nat, h: nat): nat {
    if h == 0 then 1 else size * Power(size, h - 1)
  }

  // The number of calls that n parts need.
  function CallCount(n: nat, size: nat): nat
    requires size >= 2
    decreases n
  {
    if n <= size then 1
    else
      CeilingBounds(n, size);
      Ceiling(n, size) + CallCount(Ceiling(n, size), size)
  }

  lemma {:induction false} CeilingProduct(n: nat, size: nat)
    requires size > 0
    ensures n <= Ceiling(n, size) * size < n + size
  {
    if n > size {
      CeilingProduct(n - size, size);
      NextProduct(Ceiling(n - size, size), size);
    }
  }

  lemma CeilingBounds(n: nat, size: nat)
    requires size >= 2
    ensures n <= Ceiling(n, size) * size < n + size
    ensures n > size ==> 2 <= Ceiling(n, size) < n
    ensures n >= 1 ==> 2 * Ceiling(n, size) <= n + 1
  {
    var m := Ceiling(n, size);
    CeilingProduct(n, size);
    if m >= 1 {
      Distribute(size, m, 1);
      Times(size, 2, m - 1);
    }
  }

  lemma {:induction false} LeavesOfConcat(a: seq<Summary>, b: seq<Summary>)
    ensures LeavesOf(a + b) == LeavesOf(a) + LeavesOf(b)
  {
    if a == [] {
      assert a + b == b;
    } else {
      LeavesOfConcat(a[1..], b);
      assert (a + b)[1..] == a[1..] + b;
      Associate(Leaves(a[0]), LeavesOf(a[1..]), LeavesOf(b));
    }
  }

  lemma {:induction false} CallsOfConcat(a: seq<Summary>, b: seq<Summary>)
    ensures CallsOf(a + b) == CallsOf(a) + CallsOf(b)
  {
    if a == [] {
      assert a + b == b;
    } else {
      CallsOfConcat(a[1..], b);
      assert (a + b)[1..] == a[1..] + b;
    }
  }

  lemma {:induction false} LeavesOfSections(chunks: seq<string>)
    ensures LeavesOf(Sections(chunks)) == chunks && CallsOf(Sections(chunks)) == 0
  {
    if chunks != [] {
      LeavesOfSections(chunks[1..]);
      assert Sections(chunks)[1..] == Sections(chunks[1..]);
    }
  }

  lemma OneCall(items: seq<Summary>)
    ensures LeavesOf([Call(items)]) == LeavesOf(items) && CallsOf([Call(items)]) == 1 + CallsOf(items)
  {
    assert LeavesOf([Call(items)]) == Leaves(Call(items)) + LeavesOf([]);
  }

  /** Batching keeps the chunks and their order, and adds one call for each batch. */
  lemma BatchesKeepLeaves(items: seq<Summary>, size: nat)
    requires size >= 2
    ensures LeavesOf(Batches(items, size)) == LeavesOf(items)
    ensures |Batches(items, size)| == Ceiling(|items|, size)
    ensures CallsOf(Batches(items, size)) == CallsOf(items) + |Batches(items, size)|
  {
    BatchLeaves(items, size);
    BatchNumber(items, size);
    BatchCalls(items, size);
  }

  lemma {:induction false} BatchLeaves(items: seq<Summary>, size: nat)
    requires size >= 2
    ensures LeavesOf(Batches(items, size)) == LeavesOf(items)
    decreases |items|
  {
    if items == [] {
    } else if |items| <= size {
      OneCall(items);
    } else {
      var head, tail := items[..size], items[size..];
      BatchLeaves(tail, size);
      OneCall(head);
      LeavesOfConcat([Call(head)], Batches(tail, size));
      assert items == head + tail;
      LeavesOfConcat(head, tail);
    }
  }

  lemma {:induction false} BatchNumber(items: seq<Summary>, size: nat)
    requires size >= 2
    ensures |Batches(items, size)| == Ceiling(|items|, size)
    decreases |items|
  {
    if items == [] {
    } else if |items| <= size {
    } else {
      BatchNumber(items[size..], size);
    }
  }

  lemma {:induction false} BatchCalls(items: seq<Summary>, size: nat)
    requires size >= 2
    ensures CallsOf(Batches(items, size)) == CallsOf(items) + |Batches(items, size)|
    decreases |items|
  {
    if items == [] {
    } else if |items| <= size {
      OneCall(items);
    } else {
      var head, tail := items[..size], items[size..];
      BatchCalls(tail, size);
      OneCall(head);
      CallsOfConcat([Call(head)], Batches(tail, size));
      assert items == head + tail;
      CallsOfConcat(head, tail);
    }
  }

  lemma {:induction false} BatchesBalanced(items: seq<Summary>, size: nat, h: nat)
    requires size >= 2 && AllBalanced(items, size, h)
    ensures AllBalanced(Batches(items, size), size, h + 1)
    decreases |items|
  {
    if |items| > size {
      BatchesBalanced(items[size..], size, h);
    }
  }

  // m parts of height h hold more than (m - 1) * size^h chunks and at most m * size^h.
  ghost predicate Packed(n: nat, m: nat, size: nat, h: nat) {
    m >= 1 && (m - 1) * Power(size, h) < n <= m * Power(size, h)
  }

  lemma PackedUp(n: nat, m: nat, size: nat, h: nat)
    requires size >= 2 && Packed(n, m, size, h)
    ensures Packed(n, Ceiling(m, size), size, h + 1)
  {
    var p, c := Power(size, h), Ceiling(m, size);
    CeilingBounds(m, size);
    Reassociate(c, size, p);
    Times(c * size, m, p);
    AtMost(size, 1, c);
    Distribute(size, c, 1);
    Reassociate(c - 1, size, p);
    Times(m - 1, (c - 1) * size, p);
  }

  /** Two levels of batches need at most one call more than a batch holds. */
  lemma FewCalls(n: nat, size: nat)
    requires size >= 2 && n <= size * size
    ensures CallCount(n, size) <= size + 1
  {
    if n > size {
      CeilingBounds(n, size);
      AtMost(size, Ceiling(n, size), size);
    }
  }

  // Up to one call for each size - 1 chunks beyond the first, and one for each level.
  ghost predicate Economical(n: nat, size: nat, h: nat, calls: nat, left: nat) {
    (size - 1) * calls + left <= n + (size - 1) * h
  }

  lemma EconomicalUp(n: nat, size: nat, h: nat, calls: nat, m: nat)
    requires size >= 2 && m >= 1 && Economical(n, size, h, calls, m)
    ensures Economical(n, size, h + 1, calls + Ceiling(m, size), Ceiling(m, size))
  {
    var c := Ceiling(m, size);
    CeilingBounds(m, size);
    Distribute(size - 1, calls, c);
    Distribute(size - 1, h, 1);
    assert (size - 1) * c + c == c * size;
  }

  method SummarizeBatches(items: seq<Summary>, size: nat) returns (level: seq<Summary>)
    requires size > 0
    ensures level == Batches(items, size)
  {
    level := [];
    var i := 0;
    while i < |items|
      invariant 0 <= i
      invariant level + Batches(From(items, i), size) == Batches(items, size)
      decreases |items| - i
    {
      var end := if i + size < |items| then i + size else |items|;
      level := level + [Call(items[i..end])];
      NextBatch(items, i, size);
      i := i + size;
    }
  }

  function From(items: seq<Summary>, i: nat): seq<Summary> {
    if i <= |items| then items[i..] else []
  }

  lemma NextBatch(items: seq<Summary>, i: nat, size: nat)
    requires i < |items| && size > 0
    ensures var end := if i + size < |items| then i + size else |items|;
            Batches(From(items, i), size) == [Call(items[i..end])] + Batches(From(items, i + size), size)
  {
    var rest := items[i..];
    if |rest| <= size {
      assert items[i..|items|] == rest;
    } else {
      assert rest[..size] == items[i..i + size];
      assert rest[size..] == items[i + size..];
    }
  }

  ghost predicate IsSummaryOf(s: Summary, chunks: seq<string>, size: nat, calls: nat)
    requires size >= 2
  {
    && Leaves(s) == chunks
    && Calls(s) == calls == CallCount(|chunks|, size)
    && exists h :: ShortestBalanced(s, |chunks|, size, h) && Economical(|chunks|, size, h, calls, 1)
  }

  // Balanced, and no higher than the number of chunks demands.
  ghost predicate ShortestBalanced(s: Summary, n: nat, size: nat, h: nat) {
    h >= 1 && Balanced(s, size, h) && n <= Power(size, h) && (h > 1 ==> Power(size, h - 1) < n)
  }

  // A level of summaries, h calls above the chunks.
  ghost predicate IsLevel(level: seq<Summary>, chunks: seq<string>, size: nat, h: nat, calls: nat)
    requires size >= 2
  {
    && LeavesOf(level) == chunks && CallsOf(level) == calls
    && calls + CallCount(|level|, size) == CallCount(|chunks|, size)
    && AllBalanced(level, size, h)
    && Packed(|chunks|, |level|, size, h) && Economical(|chunks|, size, h, calls, |level|)
  }

  lemma SectionsAreLevel(chunks: seq<string>, size: nat)
    requires chunks != [] && size >= 2
    ensures IsLevel(Sections(chunks), chunks, size, 0, 0)
  {
    LeavesOfSections(chunks);
  }

  lemma NextLevel(level: seq<Summary>, chunks: seq<string>, size: nat, h: nat, calls: nat)
    requires size >= 2 && IsLevel(level, chunks, size, h, calls) && |level| > size
    ensures var next := Batches(level, size);
            2 <= |next| < |level| && IsLevel(next, chunks, size, h + 1, calls + |next|)
  {
    CeilingBounds(|level|, size);
    PackedUp(|chunks|, |level|, size, h);
    EconomicalUp(|chunks|, size, h, calls, |level|);
    BatchesKeepLeaves(level, size);
    BatchesBalanced(level, size, h);
  }

  lemma LastLevel(level: seq<Summary>, chunks: seq<string>, size: nat, h: nat, calls: nat)
    requires size >= 2 && IsLevel(level, chunks, size, h, calls)
    requires |level| <= size && (h == 0 || |level| >= 2)
    ensures IsSummaryOf(Call(level), chunks, size, calls + 1)
  {
    EconomicalUp(|chunks|, size, h, calls, |level|);
    Times(size, |level|, Power(size, h));
    if h > 0 { Times(|level| - 1, 1, Power(size, h)); }
    assert ShortestBalanced(Call(level), |chunks|, size, h + 1);
  }

  /** The map-reduce loops end, read every chunk once and in order, never read more than a batch in
      one call, and build a tree that is as low as it can be. */
  method Summarize(chunks: seq<string>, size: nat) returns (s: Summary, calls: nat)
    requires chunks != [] && size >= 2
    ensures IsSummaryOf(s, chunks, size, calls)
  {
    var sections := Sections(chunks);
    SectionsAreLevel(chunks, size);
    if |chunks| <= size {
      LastLevel(sections, chunks, size, 0, 0);
      s, calls := Call(sections), 1;
      return;
    }
    NextLevel(sections, chunks, size, 0, 0);
    var level := SummarizeBatches(sections, size);
    calls := |level|;
    ghost var h := 1;
    while |level| > size
      invariant |level| >= 2 && h >= 1 && IsLevel(level, chunks, size, h, calls)
      decreases |level|
    {
      NextLevel(level, chunks, size, h, calls);
      level := SummarizeBatches(level, size);
      calls := calls + |level|;
      h := h + 1;
    }
    LastLevel(level, chunks, size, h, calls);
    s, calls := Call(level), calls + 1;
  }

  /** A document with chunks is summarised from its even sample in at most nine calls. */
  method SummarizeDocument(allChunks: seq<string>) returns (s: Summary, calls: nat)
    requires allChunks != []
    ensures IsSummaryOf(s, SampleEvenly(allChunks, MAX_CHUNKS), BATCH_SIZE, calls)
    ensures calls <= 9
  {
    var chunks := if |allChunks| > MAX_CHUNKS then SampleEvenly(allChunks, MAX_CHUNKS) else allChunks;
    SampleIsEven(allChunks, MAX_CHUNKS);
    s, calls := Summarize(chunks, BATCH_SIZE);
    FewCalls(|chunks|, BATCH_SIZE);
  }
}
