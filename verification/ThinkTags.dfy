/** Separation of tagged reasoning from visible text in a provider stream, as a matter of strings.

    The application reads a stream chunk by chunk and holds back what might be the start of a
    marker. `Scan` is the one-shot meaning of a whole text, and `Stream` the state an incremental
    reader must have reached after a text, however it was cut into pieces. */
module ThinkTags {
  import opened Basics
  import opened StreamEvents

  datatype MarkerPair = MarkerPair(open: string, close: string)
  type Markers = m: MarkerPair | m.open != "" && m.close != "" witness MarkerPair("<", ">")

  // The marker looked for in a mode.
  function Sought(m: Markers, inside: bool): (r: string)
    ensures r != ""
  {
    if inside then m.close else m.open
  }

  // The marker occurs at position k.
  predicate At(s: string, k: nat, marker: string)
    requires k <= |s|
  {
    marker <= s[k..]
  }

  // From position k to the end, s is the beginning of a marker but not all of it.
  predicate PartialAt(s: string, k: nat, marker: string)
    requires k <= |s|
  {
    s[k..] < marker
  }

  ghost predicate NoMarkerBefore(s: string, k: nat, marker: string)
    requires k <= |s|
  {
    forall j | 0 <= j < k :: !At(s, j, marker)
  }

  // k starts the longest suffix of s that is a proper prefix of the marker.
  ghost predicate IsLongestPartial(s: string, k: nat, marker: string) {
    && k <= |s| && PartialAt(s, k, marker)
    && forall j | 0 <= j < k :: !PartialAt(s, j, marker)
  }

  /** One left-to-right pass over a complete text: at each position either the marker of the
      current mode is consumed and the mode changes, or one character goes to the current channel. */
  function Scan(m: Markers, s: string, inside: bool): seq<Tagged>
    decreases |s|
  {
    if s == "" then []
    else if Sought(m, inside) <= s then Scan(m, s[|Sought(m, inside)|..], !inside)
    else [Tagged(inside, s[0])] + Scan(m, s[1..], inside)
  }

  function ModeAfter(m: Markers, s: string, inside: bool): bool
    decreases |s|
  {
    if s == "" then inside
    else if Sought(m, inside) <= s then ModeAfter(m, s[|Sought(m, inside)|..], !inside)
    else ModeAfter(m, s[1..], inside)
  }

  datatype Split = Split(out: seq<Tagged>, inside: bool, held: string)

  // As Scan, but stopping where what is left may still grow into a marker.
  function Stream(m: Markers, s: string, inside: bool): Split
    decreases |s|
  {
    if Sought(m, inside) <= s then Stream(m, s[|Sought(m, inside)|..], !inside)
    else if s <= Sought(m, inside) then Split([], inside, s)
    else
      var rest := Stream(m, s[1..], inside);
      rest.(out := [Tagged(inside, s[0])] + rest.out)
  }

  lemma Comparable(marker: string, s: string, t: string)
    requires marker <= s + t || s + t <= marker
    ensures marker <= s || s <= marker
  {
    if |marker| <= |s| {
      assert marker <= s + t;
      assert s[..|marker|] == (s + t)[..|marker|] == marker;
    } else {
      assert marker[..|s|] == (s + t)[..|s|] == s;
    }
  }

  lemma Diverges(marker: string, s: string, t: string)
    requires !(marker <= s) && !(s <= marker)
    ensures !(marker <= s + t) && !(s + t <= marker)
  {
    if marker <= s + t || s + t <= marker {
      Comparable(marker, s, t);
    }
  }

  lemma AtExtended(marker: string, s: string, t: string)
    requires marker <= s
    ensures marker <= s + t && (s + t)[|marker|..] == s[|marker|..] + t
  {
    assert (s + t)[..|marker|] == s[..|marker|];
  }

  /** The string-matching step behind chunk invariance: reading a text in two pieces, carrying only
      the mode and the held suffix across, is reading it in one piece. */
  lemma {:induction false} StreamAppend(m: Markers, s: string, t: string, inside: bool)
    ensures var a := Stream(m, s, inside);
            var b := Stream(m, a.held + t, a.inside);
            Stream(m, s + t, inside) == Split(a.out + b.out, b.inside, b.held)
    decreases |s|
  {
    var marker := Sought(m, inside);
    if marker <= s {
      AtExtended(marker, s, t);
      StreamAppend(m, s[|marker|..], t, !inside);
    } else if s <= marker {
      assert Stream(m, s, inside) == Split([], inside, s);
    } else {
      StreamStep(m, s, inside);
      StreamStepExtended(m, s, t, inside);
      StreamAppend(m, s[1..], t, inside);
      var a := Stream(m, s[1..], inside);
      Associate([Tagged(inside, s[0])], a.out, Stream(m, a.held + t, a.inside).out);
    }
  }

  // What is held is always a proper prefix of the marker sought, so reading nothing changes nothing.
  lemma {:induction false} StreamHoldsPartial(m: Markers, s: string, inside: bool)
    ensures var p := Stream(m, s, inside); p.held < Sought(m, p.inside)
    decreases |s|
  {
    var marker := Sought(m, inside);
    if marker <= s {
      StreamHoldsPartial(m, s[|marker|..], !inside);
    } else if s <= marker {
    } else {
      StreamHoldsPartial(m, s[1..], inside);
    }
  }

  lemma StreamOfPartial(m: Markers, s: string, inside: bool)
    requires s < Sought(m, inside)
    ensures Stream(m, s, inside) == Split([], inside, s)
  {
  }

  // Flushing what an incremental reader holds completes the one-shot pass.
  lemma {:induction false} StreamFlushed(m: Markers, s: string, inside: bool)
    ensures var p := Stream(m, s, inside);
            Scan(m, s, inside) == p.out + Tag(p.held, p.inside) && ModeAfter(m, s, inside) == p.inside
    decreases |s|
  {
    var marker := Sought(m, inside);
    if marker <= s {
      StreamFlushed(m, s[|marker|..], !inside);
    } else if s <= marker {
      ScanPartial(m, s, inside);
    } else {
      StreamFlushed(m, s[1..], inside);
    }
  }

  lemma {:induction false} ScanPartial(m: Markers, s: string, inside: bool)
    requires |s| < |Sought(m, inside)|
    ensures Scan(m, s, inside) == Tag(s, inside) && ModeAfter(m, s, inside) == inside
    decreases |s|
  {
    if s != "" {
      ScanPartial(m, s[1..], inside);
      TagCons(s, inside);
    }
  }

  lemma Shifted(s: string, j: nat, marker: string)
    requires j + 1 <= |s|
    ensures At(s[1..], j, marker) == At(s, j + 1, marker)
    ensures PartialAt(s[1..], j, marker) == PartialAt(s, j + 1, marker)
  {
    assert s[1..][j..] == s[j + 1..];
  }

  lemma NoMarkerShifted(s: string, k: nat, marker: string)
    requires 1 <= k <= |s| && NoMarkerBefore(s, k, marker)
    ensures !(marker <= s) && NoMarkerBefore(s[1..], k - 1, marker)
  {
    assert !At(s, 0, marker);
    assert s[0..] == s;
    forall j | 0 <= j < k - 1 ensures !At(s[1..], j, marker) {
      Shifted(s, j, marker);
    }
  }

  // No marker and no beginning of one that reaches the end of the text starts before k.
  ghost predicate PlainBefore(s: string, k: nat, marker: string)
    requires k <= |s|
  {
    NoMarkerBefore(s, k, marker) && forall j | 0 <= j < k :: !PartialAt(s, j, marker)
  }

  lemma PlainShifted(s: string, k: nat, marker: string)
    requires 1 <= k <= |s| && PlainBefore(s, k, marker)
    ensures !(marker <= s) && !(s <= marker) && PlainBefore(s[1..], k - 1, marker)
  {
    NoMarkerShifted(s, k, marker);
    assert !PartialAt(s, 0, marker);
    assert s[0..] == s;
    forall j | 0 <= j < k - 1 ensures !PartialAt(s[1..], j, marker) {
      Shifted(s, j, marker);
    }
  }

  // Plain text passes through unchanged.
  lemma {:induction false} StreamOverPlain(m: Markers, s: string, k: nat, inside: bool)
    requires k <= |s| && PlainBefore(s, k, Sought(m, inside))
    ensures var rest := Stream(m, s[k..], inside);
            Stream(m, s, inside) == Split(Tag(s[..k], inside) + rest.out, rest.inside, rest.held)
    decreases k
  {
    if k == 0 {
      assert s[0..] == s;
    } else {
      PlainShifted(s, k, Sought(m, inside));
      StreamOverPlain(m, s[1..], k - 1, inside);
      assert s[1..][k - 1..] == s[k..];
      StreamOverHead(m, s, k, inside);
    }
  }

  lemma StreamOverHead(m: Markers, s: string, k: nat, inside: bool)
    requires 1 <= k <= |s| && !(Sought(m, inside) <= s) && !(s <= Sought(m, inside))
    requires var rest := Stream(m, s[k..], inside);
             Stream(m, s[1..], inside) == Split(Tag(s[1..][..k - 1], inside) + rest.out, rest.inside, rest.held)
    ensures var rest := Stream(m, s[k..], inside);
            Stream(m, s, inside) == Split(Tag(s[..k], inside) + rest.out, rest.inside, rest.held)
  {
    TagHead(s, k, inside);
    Associate([Tagged(inside, s[0])], Tag(s[1..][..k - 1], inside), Stream(m, s[k..], inside).out);
  }

  lemma StreamStep(m: Markers, s: string, inside: bool)
    requires !(Sought(m, inside) <= s) && !(s <= Sought(m, inside))
    ensures var rest := Stream(m, s[1..], inside);
            Stream(m, s, inside) == Split([Tagged(inside, s[0])] + rest.out, rest.inside, rest.held)
  {
  }

  lemma StreamStepExtended(m: Markers, s: string, t: string, inside: bool)
    requires !(Sought(m, inside) <= s) && !(s <= Sought(m, inside))
    ensures var rest := Stream(m, s[1..] + t, inside);
            Stream(m, s + t, inside) == Split([Tagged(inside, s[0])] + rest.out, rest.inside, rest.held)
  {
    Diverges(Sought(m, inside), s, t);
    StreamStep(m, s + t, inside);
    assert (s + t)[1..] == s[1..] + t;
  }

  lemma TagHead(s: string, k: nat, inside: bool)
    requires 1 <= k <= |s|
    ensures Tag(s[..k], inside) == [Tagged(inside, s[0])] + Tag(s[1..][..k - 1], inside)
  {
    assert s[..k][1..] == s[1..][..k - 1];
  }

  // Up to the first marker everything passes, and the marker itself changes the mode.
  lemma StreamOverMarker(m: Markers, s: string, k: nat, inside: bool)
    requires k <= |s| && At(s, k, Sought(m, inside)) && NoMarkerBefore(s, k, Sought(m, inside))
    ensures k + |Sought(m, inside)| <= |s|
    ensures var rest := Stream(m, s[k + |Sought(m, inside)|..], !inside);
            Stream(m, s, inside) == Split(Tag(s[..k], inside) + rest.out, rest.inside, rest.held)
  {
    var marker := Sought(m, inside);
    assert s[k..][|marker|..] == s[k + |marker|..];
    StreamOverPlain(m, s, k, inside);
  }

  // Without a marker, everything passes but the longest partial marker at the end.
  lemma StreamWithoutMarker(m: Markers, s: string, k: nat, inside: bool)
    requires NoMarkerBefore(s, |s|, Sought(m, inside)) && IsLongestPartial(s, k, Sought(m, inside))
    ensures Stream(m, s, inside) == Split(Tag(s[..k], inside), inside, s[k..])
  {
    StreamOverPlain(m, s, k, inside);
  }

  // A complete text without a marker all goes to one channel.
  lemma {:induction false} ScanWithoutMarker(m: Markers, s: string, inside: bool)
    requires NoMarkerBefore(s, |s|, Sought(m, inside))
    ensures Scan(m, s, inside) == Tag(s, inside) && ModeAfter(m, s, inside) == inside
    decreases |s|
  {
    if s != "" {
      NoMarkerShifted(s, |s|, Sought(m, inside));
      ScanWithoutMarker(m, s[1..], inside);
      TagCons(s, inside);
    }
  }

  lemma {:induction false} ScanToMarker(m: Markers, s: string, k: nat, inside: bool)
    requires k <= |s| && At(s, k, Sought(m, inside)) && NoMarkerBefore(s, k, Sought(m, inside))
    ensures k + |Sought(m, inside)| <= |s|
    ensures Scan(m, s, inside) == Tag(s[..k], inside) + Scan(m, s[k + |Sought(m, inside)|..], !inside)
  {
    var rest := s[k + |Sought(m, inside)|..];
    StreamOverMarker(m, s, k, inside);
    StreamFlushed(m, s, inside);
    StreamFlushed(m, rest, !inside);
    Associate(Tag(s[..k], inside), Stream(m, rest, !inside).out, Tag(Stream(m, rest, !inside).held, Stream(m, rest, !inside).inside));
  }

  /** What stands between an opening and the next closing marker is reasoning; what stands before is
      visible, and so is what follows, up to the next opening marker. */
  lemma {:induction false} TaggedText(m: Markers, before: string, thought: string, after: string)
    requires NoMarkerBefore(before + m.open + (thought + m.close + after), |before|, m.open)
    requires NoMarkerBefore(thought + m.close + after, |thought|, m.close)
    ensures Scan(m, before + m.open + (thought + m.close + after), false)
            == Tag(before, false) + (Tag(thought, true) + Scan(m, after, false))
  {
    var rest := thought + m.close + after;
    MarkerAt(before, m.open, rest);
    MarkerAt(thought, m.close, after);
    ScanToMarker(m, before + m.open + rest, |before|, false);
    ScanToMarker(m, rest, |thought|, true);
  }

  lemma MarkerAt(before: string, marker: string, after: string)
    ensures At(before + marker + after, |before|, marker)
    ensures (before + marker + after)[..|before|] == before && (before + marker + after)[|before| + |marker|..] == after
  {
    assert (before + marker + after)[|before|..] == marker + after;
  }

  // Some suffix, at the latest the empty one, is the longest partial marker.
  lemma {:induction false} LongestPartialExists(s: string, marker: string) returns (k: nat)
    requires marker != ""
    ensures IsLongestPartial(s, k, marker)
  {
    k := 0;
    while k < |s| && !PartialAt(s, k, marker)
      invariant k <= |s|
      invariant forall j | 0 <= j < k :: !PartialAt(s, j, marker)
    {
      k := k + 1;
    }
  }

  // The least position at which the marker occurs, or |s|.
  lemma {:induction false} FirstMarker(s: string, marker: string) returns (k: nat)
    requires marker != ""
    ensures k <= |s| && NoMarkerBefore(s, k, marker) && (k < |s| ==> At(s, k, marker))
  {
    k := 0;
    while k < |s| && !At(s, k, marker)
      invariant k <= |s| && NoMarkerBefore(s, k, marker)
    {
      k := k + 1;
    }
  }

  // s[..done] has been consumed completely and no marker follows it.
  ghost predicate ConsumedTo(m: Markers, s: string, inside: bool, done: nat) {
    && done <= |s|
    && var consumed := Stream(m, s[..done], inside);
       consumed.held == "" && NoMarkerBefore(s[done..], |s| - done, Sought(m, consumed.inside))
  }

  lemma {:induction false} ConsumedExists(m: Markers, s: string, inside: bool) returns (done: nat)
    ensures ConsumedTo(m, s, inside, done)
    decreases |s|
  {
    var marker := Sought(m, inside);
    var at := FirstMarker(s, marker);
    if at < |s| {
      var after := at + |marker|;
      var d := ConsumedExists(m, s[after..], !inside);
      FirstMarkerConsumed(m, s, at, inside);
      ConsumedFurther(m, s, after, d, inside);
      done := after + d;
    } else {
      done := 0;
      assert s[0..] == s && s[..0] == "";
    }
  }

  lemma ConsumedFurther(m: Markers, s: string, after: nat, d: nat, inside: bool)
    requires after <= |s| && Stream(m, s[..after], inside).held == ""
    requires ConsumedTo(m, s[after..], Stream(m, s[..after], inside).inside, d)
    ensures ConsumedTo(m, s, inside, after + d)
  {
    StreamAppend(m, s[..after], s[after..][..d], inside);
    Pieces(s, after, d);
  }

  lemma FirstMarkerConsumed(m: Markers, s: string, at: nat, inside: bool)
    requires at <= |s| && At(s, at, Sought(m, inside)) && NoMarkerBefore(s, at, Sought(m, inside))
    ensures at + |Sought(m, inside)| <= |s|
    ensures var p := Stream(m, s[..at + |Sought(m, inside)|], inside); p.held == "" && p.inside == !inside
  {
    PrefixKeepsFirst(s, at + |Sought(m, inside)|, at, Sought(m, inside));
    StreamOverMarker(m, s[..at + |Sought(m, inside)|], at, inside);
  }

  lemma Pieces(s: string, i: nat, d: nat)
    requires i + d <= |s|
    ensures s[..i + d] == s[..i] + s[i..][..d] && s[i..][d..] == s[i + d..] && "" + s[i..][..d] == s[i..][..d]
  {
  }

  /** What an incremental reader holds is the longest suffix, of the text after the last consumed
      marker, that is a proper prefix of the marker now sought; the rest has been let through. */
  lemma HeldIsLongest(m: Markers, s: string, inside: bool) returns (done: nat, k: nat)
    ensures ConsumedTo(m, s, inside, done)
    ensures var consumed := Stream(m, s[..done], inside);
            && IsLongestPartial(s[done..], k, Sought(m, consumed.inside))
            && Stream(m, s, inside)
               == Split(consumed.out + Tag(s[done..][..k], consumed.inside), consumed.inside, s[done..][k..])
  {
    done := ConsumedExists(m, s, inside);
    var consumed := Stream(m, s[..done], inside);
    k := LongestPartialExists(s[done..], Sought(m, consumed.inside));
    StreamWithoutMarker(m, s[done..], k, consumed.inside);
    ReadOn(m, s, done, inside);
  }

  lemma ReadOn(m: Markers, s: string, done: nat, inside: bool)
    requires done <= |s| && Stream(m, s[..done], inside).held == ""
    ensures var consumed := Stream(m, s[..done], inside);
            var rest := Stream(m, s[done..], consumed.inside);
            Stream(m, s, inside) == Split(consumed.out + rest.out, rest.inside, rest.held)
  {
    StreamAppend(m, s[..done], s[done..], inside);
    Halves(s, done);
  }

  lemma Halves(s: string, done: nat)
    requires done <= |s|
    ensures s[..done] + s[done..] == s && "" + s[done..] == s[done..]
  {
  }

  lemma PrefixKeepsFirst(s: string, n: nat, at: nat, marker: string)
    requires at + |marker| <= n <= |s| && At(s, at, marker) && NoMarkerBefore(s, at, marker)
    ensures At(s[..n], at, marker) && NoMarkerBefore(s[..n], at, marker)
  {
    assert s[at..at + |marker|] == marker;
    assert s[..n][at..at + |marker|] == s[at..at + |marker|];
    forall j | 0 <= j < at ensures !At(s[..n], j, marker) {
      if At(s[..n], j, marker) {
        assert s[..n][j..][..|marker|] == s[j..][..|marker|];
        assert At(s, j, marker);
      }
    }
  }

  // --- Texts read apart ---

  // The first character of both markers occurs nowhere else in them, and neither begins the other.
  ghost predicate Distinctive(m: Markers) {
    && m.open[0] == m.close[0] && !(m.open <= m.close) && !(m.close <= m.open)
    && (forall k | 1 <= k < |m.open| :: m.open[k] != m.open[0])
    && forall k | 1 <= k < |m.close| :: m.close[k] != m.open[0]
  }

  // What is held at the end of one text and the beginning of the next make up the marker sought.
  predicate Straddles(m: Markers, p: Split, t: string) {
    p.held != "" && Sought(m, p.inside) <= p.held + t
  }

  lemma ScanAppend(m: Markers, s: string, t: string, inside: bool)
    ensures var p := Stream(m, s, inside); Scan(m, s + t, inside) == p.out + Scan(m, p.held + t, p.inside)
  {
    var p := Stream(m, s, inside);
    var q := Stream(m, p.held + t, p.inside);
    StreamAppend(m, s, t, inside);
    StreamFlushed(m, s + t, inside);
    StreamFlushed(m, p.held + t, p.inside);
    Associate(p.out, q.out, Tag(q.held, q.inside));
  }

  // Text without the first character of the markers passes, whatever follows.
  lemma {:induction false} ScanPlainHead(m: Markers, h: string, t: string, inside: bool)
    requires Distinctive(m) && forall k | 0 <= k < |h| :: h[k] != m.open[0]
    ensures Scan(m, h + t, inside) == Tag(h, inside) + Scan(m, t, inside)
    decreases |h|
  {
    if h == "" {
      assert h + t == t;
    } else {
      ScanPlainHead(m, h[1..], t, inside);
      ScanOneMore(m, h, t, inside);
    }
  }

  // One character that opens no marker.
  lemma ScanOneMore(m: Markers, h: string, t: string, inside: bool)
    requires h != "" && !(Sought(m, inside) <= h + t)
    requires Scan(m, h[1..] + t, inside) == Tag(h[1..], inside) + Scan(m, t, inside)
    ensures Scan(m, h + t, inside) == Tag(h, inside) + Scan(m, t, inside)
  {
    assert (h + t)[1..] == h[1..] + t;
    TagCons(h, inside);
    Associate([Tagged(inside, h[0])], Tag(h[1..], inside), Scan(m, t, inside));
  }

  lemma TailIsPlain(m: Markers, marker: string, n: nat)
    requires Distinctive(m) && marker in {m.open, m.close} && 1 <= n <= |marker|
    ensures forall k | 0 <= k < |marker[n..]| :: marker[n..][k] != m.open[0]
  {
    forall k | 0 <= k < |marker[n..]| ensures marker[n..][k] != m.open[0] {
      assert marker[n..][k] == marker[n + k];
    }
  }

  // A beginning of a marker that is not completed passes as text.
  lemma ScanUnfinished(m: Markers, held: string, t: string, inside: bool)
    requires Distinctive(m) && held != "" && held < Sought(m, inside) && !(Sought(m, inside) <= held + t)
    ensures Scan(m, held + t, inside) == Tag(held, inside) + Scan(m, t, inside)
  {
    var marker := Sought(m, inside);
    forall k | 0 <= k < |held[1..]| ensures held[1..][k] != m.open[0] {
      assert held[1..][k] == marker[k + 1];
    }
    ScanPlainHead(m, held[1..], t, inside);
    ScanOneMore(m, held, t, inside);
  }

  // The other marker is text where it is not the one sought.
  lemma ScanOtherMarker(m: Markers, t: string, inside: bool)
    requires Distinctive(m)
    ensures var other := Sought(m, !inside); Scan(m, other + t, inside) == Tag(other, inside) + Scan(m, t, inside)
  {
    var other := Sought(m, !inside);
    TailIsPlain(m, other, 1);
    NotBoth(Sought(m, inside), other, t);
    ScanPlainHead(m, other[1..], t, inside);
    ScanOneMore(m, other, t, inside);
  }

  lemma NotBoth(a: string, b: string, t: string)
    requires !(a <= b) && !(b <= a)
    ensures !(a <= b + t)
  {
    Diverges(a, b, t);
  }

  lemma Completed(marker: string, held: string, t: string) returns (after: string)
    requires held < marker && marker <= held + t
    ensures t == marker[|held|..] + after && held + t == marker + after && (held + t)[|marker|..] == after
  {
    after := (held + t)[|marker|..];
    assert held + t == marker + after;
    assert t == (held + t)[|held|..];
  }

  // In the other mode a text gives at most a marker's length more characters.
  lemma {:induction false} ScanOtherMode(m: Markers, s: string, inside: bool)
    requires Distinctive(m)
    ensures |Scan(m, s, !inside)| <= |Sought(m, inside)| + |Scan(m, s, inside)|
    decreases |s|
  {
    var marker, other := Sought(m, inside), Sought(m, !inside);
    if s == "" {
    } else if other <= s {
      AtStart(other, s);
      ScanOtherMarker(m, s[|other|..], inside);
    } else if marker <= s {
      AtStart(marker, s);
      ScanOtherMarker(m, s[|marker|..], !inside);
    } else {
      ScanOtherMode(m, s[1..], inside);
    }
  }

  lemma AtStart(marker: string, s: string)
    requires marker <= s
    ensures s == marker + s[|marker|..]
  {
  }

  // A cut marker passes as text, and the text after it is read in the old mode.
  lemma ScanPassed(m: Markers, held: string, after: string, inside: bool)
    requires Distinctive(m) && held != "" && held < Sought(m, inside)
    ensures var rest := Sought(m, inside)[|held|..];
            |Tag(held, inside) + Scan(m, rest + after, inside)| == |Sought(m, inside)| + |Scan(m, after, inside)|
  {
    TailIsPlain(m, Sought(m, inside), |held|);
    ScanPlainHead(m, Sought(m, inside)[|held|..], after, inside);
  }

  // A marker cut by a flush gives no fewer characters than one read in one, and if as many, then the
  // first one after a consumed marker is in the other mode.
  lemma CutIsLonger(m: Markers, held: string, t: string, inside: bool)
    requires Distinctive(m) && held != "" && held < Sought(m, inside) && Sought(m, inside) <= held + t
    ensures var one, two := Scan(m, held + t, inside), Tag(held, inside) + Scan(m, t, inside);
            |one| <= |two| && (|one| == |two| ==> one != [] && one[0].reasoning != inside)
  {
    var other := Sought(m, !inside);
    var after := Completed(Sought(m, inside), held, t);
    ScanPassed(m, held, after, inside);
    ScanOtherMode(m, after, inside);
    if other <= after {
      AtStart(other, after);
      ScanOtherMarker(m, after[|other|..], inside);
    } else {
      FirstChannel(m, after, !inside);
    }
  }

  // A completed marker is consumed when read in one, and let through when it was cut by a flush.
  lemma ScanCutMarker(m: Markers, held: string, t: string, inside: bool)
    requires Distinctive(m) && held != "" && held < Sought(m, inside) && Sought(m, inside) <= held + t
    ensures Scan(m, held + t, inside) != Tag(held, inside) + Scan(m, t, inside)
  {
    CutIsLonger(m, held, t, inside);
    TagCons(held, inside);
  }

  lemma FirstChannel(m: Markers, s: string, inside: bool)
    requires !(Sought(m, inside) <= s)
    ensures Scan(m, s, inside) == [] || Scan(m, s, inside)[0].reasoning == inside
  {
  }

  lemma Cancel(a: seq<Tagged>, b: seq<Tagged>, c: seq<Tagged>)
    ensures a + b == a + c <==> b == c
  {
    if a + b == a + c {
      assert b == (a + b)[|a|..] && c == (a + c)[|a|..];
    }
  }

  /** Two texts read apart, with a flush between them, are read as one text if and only if no marker
      straddles the border. */
  lemma ReadApart(m: Markers, s: string, t: string, inside: bool)
    requires Distinctive(m)
    ensures var p := Stream(m, s, inside);
            Scan(m, s, inside) + Scan(m, t, p.inside) == Scan(m, s + t, inside) <==> !Straddles(m, p, t)
  {
    var p := Stream(m, s, inside);
    StreamFlushed(m, s, inside);
    ScanAppend(m, s, t, inside);
    HeldReadApart(m, p.held, t, p.inside) by {
      StreamHoldsPartial(m, s, inside);
    }
    Associate(p.out, Tag(p.held, p.inside), Scan(m, t, p.inside));
    Cancel(p.out, Tag(p.held, p.inside) + Scan(m, t, p.inside), Scan(m, p.held + t, p.inside));
  }

  lemma HeldReadApart(m: Markers, held: string, t: string, inside: bool)
    requires Distinctive(m) && held < Sought(m, inside)
    ensures Tag(held, inside) + Scan(m, t, inside) == Scan(m, held + t, inside)
            <==> !(held != "" && Sought(m, inside) <= held + t)
  {
    if held == "" {
      assert held + t == t && Tag("", inside) + Scan(m, t, inside) == Scan(m, t, inside);
    } else if Sought(m, inside) <= held + t {
      ScanCutMarker(m, held, t, inside);
    } else {
      ScanUnfinished(m, held, t, inside);
    }
  }
}
