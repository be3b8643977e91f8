/** Why a run is stopped, in terms of the turns of its trace alone. */
module StopReasons {
  import opened Basics
  import opened Messages
  import opened LoopGuards

  // --- What the trace must show for each reason ---

  // The turns from position m on that asked for a feed family, and for this one.
  function FamilyTurns(trace: seq<Turn>, m: nat): set<nat> {
    set i: nat | m <= i < |trace| && trace[i].rssFamily != ""
  }

  function TurnsOf(trace: seq<Turn>, m: nat, family: string): set<nat> {
    set i: nat | m <= i < |trace| && trace[i].rssFamily == family
  }

  // Some end of the trace, with no more feed turns than are remembered, has asked for the family so often.
  ghost predicate OftenAsked(trace: seq<Turn>, family: string, threshold: int) {
    exists m: nat :: OftenAskedFrom(trace, m, family, threshold)
  }

  ghost predicate OftenAskedFrom(trace: seq<Turn>, m: nat, family: string, threshold: int) {
    m <= |trace| && |FamilyTurns(trace, m)| <= RSS_WINDOW && |TurnsOf(trace, m, family)| >= threshold
  }

  function SignaturesFrom(trace: seq<Turn>, m: nat): set<string> {
    set i: nat | m <= i < |trace| :: trace[i].signature
  }

  // The last k turns.
  ghost predicate LastFailed(trace: seq<Turn>, k: nat) {
    k <= |trace| && forall i | |trace| - k <= i < |trace| :: trace[i].failedSearch
  }

  ghost predicate LastSame(trace: seq<Turn>, k: nat) {
    k <= |trace| && forall i | |trace| - k <= i < |trace| :: trace[i].signature == trace[|trace| - 1].signature
  }

  ghost predicate LastSameMeaning(trace: seq<Turn>, k: nat) {
    k <= |trace| && forall i | |trace| - k <= i < |trace| :: trace[i].semantic == trace[|trace| - 1].semantic
  }

  ghost predicate LastExplored(trace: seq<Turn>, k: nat) {
    k <= |trace| && forall i | |trace| - k <= i < |trace| :: trace[i].exploration
  }

  ghost predicate Meets(reason: StopReason, trace: seq<Turn>, c: Config)
    requires trace != []
  {
    var t := trace[|trace| - 1];
    var window := Max(2, c.churnWindow);
    match reason
    case FailedDelete => t.failedDelete
    case TaskHandoff => t.handoff
    case FailedSearchLoop => LastFailed(trace, 5)
    case RepeatedSignature => LastSame(trace, Max(0, c.signatureThreshold) + 1)
    case RepeatedSemantic => t.semantic != "" && LastSameMeaning(trace, Max(0, c.semanticThreshold) + 1)
    case RssFamilyChurn => t.rssFamily != "" && OftenAsked(trace, t.rssFamily, c.rssFamilyThreshold)
    case HeadlineConvergence =>
      t.rssFamily != "" && c.rssOwned && Min(RSS_WINDOW, |FamilyTurns(trace, 0)|) >= c.headlineTurnCap && t.rssSynthesis
    case SummaryThenSearch => t.document && t.summaryEvidence && t.searchesLibrary && t.summarySynthesis
    case TurnBudgetNear => t.document && t.number >= c.maxTurns - 1 && t.budgetSynthesis
    case ExplorationChurn =>
      LastExplored(trace, window) && |SignaturesFrom(trace, |trace| - window)| <= Max(1, c.churnMaxUnique)
  }

  // The order in which the reasons are looked at.
  function Order(reason: StopReason): nat {
    match reason
    case FailedDelete => 0
    case TaskHandoff => 1
    case FailedSearchLoop => 2
    case RepeatedSignature => 3
    case RepeatedSemantic => 4
    case RssFamilyChurn => 5
    case HeadlineConvergence => 6
    case SummaryThenSearch => 7
    case TurnBudgetNear => 8
    case ExplorationChurn => 9
  }

  // --- The guards say so ---

  lemma {:induction false} FailedRunIs(trace: seq<Turn>, k: nat)
    ensures FailedSearchRun(trace) >= k <==> LastFailed(trace, k)
  {
    if k > 0 && trace != [] {
      var before := trace[..|trace| - 1];
      FailedRunIs(before, k - 1);
      assert forall i | |trace| - k <= i < |before| && 0 <= i :: before[i] == trace[i];
    }
  }

  lemma {:induction false} RunIsShort(xs: seq<string>)
    ensures Run(xs) <= |xs|
  {
    if |xs| > 1 { RunIsShort(xs[..|xs| - 1]); }
  }

  lemma {:induction false} SameRuns(trace: seq<Turn>, k: nat)
    requires trace != [] && k >= 1
    ensures Run(Signatures(trace)) >= k <==> LastSame(trace, k)
    ensures Run(Semantics(trace)) >= k <==> LastSameMeaning(trace, k)
  {
    RunIsShort(Signatures(trace));
    RunIsShort(Semantics(trace));
    if k <= |trace| {
      RunMeans(Signatures(trace), k);
      RunMeans(Semantics(trace), k);
      SameAsListed(trace, k);
    }
  }

  lemma {:induction false} SameAsListed(trace: seq<Turn>, k: nat)
    requires 1 <= k <= |trace|
    ensures LastSame(trace, k)
            <==> forall i | |trace| - k <= i < |trace| :: Signatures(trace)[i] == Signatures(trace)[|trace| - 1]
    ensures LastSameMeaning(trace, k)
            <==> forall i | |trace| - k <= i < |trace| :: Semantics(trace)[i] == Semantics(trace)[|trace| - 1]
  {
    forall i | 0 <= i < |trace| ensures trace[i].signature == Signatures(trace)[i] && trace[i].semantic == Semantics(trace)[i] {
    }
    if LastSame(trace, k) {
      forall i | |trace| - k <= i < |trace| ensures Signatures(trace)[i] == Signatures(trace)[|trace| - 1] {
        assert trace[i].signature == trace[|trace| - 1].signature;
      }
    }
    if LastSameMeaning(trace, k) {
      forall i | |trace| - k <= i < |trace| ensures Semantics(trace)[i] == Semantics(trace)[|trace| - 1] {
        assert trace[i].semantic == trace[|trace| - 1].semantic;
      }
    }
  }

  function SetOf(xs: seq<string>): set<string> {
    set x | x in xs
  }

  lemma SignaturesMore(trace: seq<Turn>, k: nat)
    requires 1 <= k <= |trace|
    ensures var n := |trace| - 1;
            SignaturesFrom(trace, |trace| - k) == SignaturesFrom(trace[..n], n - (k - 1)) + {trace[n].signature}
  {
    var n := |trace| - 1;
    var all, fewer := SignaturesFrom(trace, |trace| - k), SignaturesFrom(trace[..n], n - (k - 1));
    forall x | x in all ensures x in fewer + {trace[n].signature} {
      var i: nat :| |trace| - k <= i < |trace| && trace[i].signature == x;
      assert i < n ==> trace[..n][i] == trace[i];
    }
    forall x | x in fewer + {trace[n].signature} ensures x in all {
      if x in fewer {
        var i: nat :| n - (k - 1) <= i < n && trace[..n][i].signature == x;
        assert trace[i].signature == x;
      }
    }
  }

  lemma {:induction false} BlockIs(trace: seq<Turn>, k: nat)
    ensures |ExplorationBlock(trace)| >= k <==> LastExplored(trace, k)
  {
    if k > 0 && trace != [] {
      var before := trace[..|trace| - 1];
      BlockIs(before, k - 1);
      assert forall i | |trace| - k <= i < |before| && 0 <= i :: before[i] == trace[i];
    }
  }

  lemma {:induction false} ExploredBefore(trace: seq<Turn>, k: nat)
    requires 1 <= k && LastExplored(trace, k)
    ensures var n := |trace| - 1;
            && LastExplored(trace[..n], k - 1) && |ExplorationBlock(trace[..n])| >= k - 1
            && ExplorationBlock(trace) == ExplorationBlock(trace[..n]) + [trace[n].signature]
  {
    var n := |trace| - 1;
    assert forall i | n - (k - 1) <= i < n :: trace[..n][i] == trace[i];
    BlockIs(trace[..n], k - 1);
  }

  lemma LastWith(xs: seq<string>, x: string, k: nat)
    requires 1 <= k <= |xs| + 1
    ensures SetOf(LastN(xs + [x], k)) == SetOf(LastN(xs, k - 1)) + {x}
    ensures SetOf(LastN(xs, 0)) == {}
  {
    assert LastN(xs + [x], k) == LastN(xs, k - 1) + [x];
  }

  lemma {:induction false} BlockHolds(trace: seq<Turn>, k: nat)
    requires 1 <= k && LastExplored(trace, k)
    ensures SetOf(LastN(ExplorationBlock(trace), k)) == SignaturesFrom(trace, |trace| - k)
  {
    var n := |trace| - 1;
    ExploredBefore(trace, k);
    SignaturesMore(trace, k);
    LastWith(ExplorationBlock(trace[..n]), trace[n].signature, k);
    if k > 1 {
      BlockHolds(trace[..n], k - 1);
    } else {
      assert SignaturesFrom(trace[..n], n) == {};
    }
  }

  lemma {:induction false} ChurnIs(trace: seq<Turn>, c: Config)
    requires trace != []
    ensures Churning(ExplorationBlock(trace), c) <==> Meets(ExplorationChurn, trace, c)
  {
    var window := Max(2, c.churnWindow);
    BlockIs(trace, window);
    if LastExplored(trace, window) {
      BlockHolds(trace, window);
      assert SetOf(LastN(ExplorationBlock(trace), window)) == set s | s in LastN(ExplorationBlock(trace), window);
    }
  }

  // --- Feed families ---

  lemma {:induction false} FamiliesConcat(a: seq<Turn>, b: seq<Turn>)
    ensures RssFamilies(a + b) == RssFamilies(a) + RssFamilies(b)
  {
    if b == [] {
      assert a + b == a;
    } else {
      var n := |b| - 1;
      FamiliesConcat(a, b[..n]);
      assert (a + b)[..|a + b| - 1] == a + b[..n];
      Associate(RssFamilies(a), RssFamilies(b[..n]), if b[n].rssFamily == "" then [] else [b[n].rssFamily]);
    }
  }

  lemma {:induction false} CountConcat(a: seq<string>, b: seq<string>, x: string)
    ensures Count(a + b, x) == Count(a, x) + Count(b, x)
  {
    if b == [] {
      assert a + b == a;
    } else {
      var n := |b| - 1;
      CountConcat(a, b[..n], x);
      assert (a + b)[..|a + b| - 1] == a + b[..n];
    }
  }

  // Turns and families of an end of the trace are as many.
  lemma {:induction false} AsManyTurns(trace: seq<Turn>, m: nat, family: string)
    requires m <= |trace| && family != ""
    ensures |FamilyTurns(trace, m)| == |RssFamilies(trace[m..])|
    ensures |TurnsOf(trace, m, family)| == Count(RssFamilies(trace[m..]), family)
  {
    if m == |trace| {
      assert FamilyTurns(trace, m) == {} && TurnsOf(trace, m, family) == {};
    } else {
      AsManyTurns(trace[..|trace| - 1], m, family);
      FamilyTurnsMore(trace, m, family);
      FamiliesMore(trace, m, family);
    }
  }

  lemma {:induction false} FamiliesMore(trace: seq<Turn>, m: nat, family: string)
    requires m < |trace| && family != ""
    ensures var n := |trace| - 1;
            var before, after := RssFamilies(trace[..n][m..]), RssFamilies(trace[m..]);
            && |after| == |before| + (if trace[n].rssFamily != "" then 1 else 0)
            && Count(after, family) == Count(before, family) + if trace[n].rssFamily == family then 1 else 0
  {
    var n := |trace| - 1;
    assert trace[m..][..|trace[m..]| - 1] == trace[..n][m..];
    OneCounted(RssFamilies(trace[..n][m..]), trace[n].rssFamily, family);
    assert RssFamilies(trace[..n][m..]) + [] == RssFamilies(trace[..n][m..]);
  }

  lemma {:induction false} OneCounted(xs: seq<string>, x: string, family: string)
    ensures Count(xs + [x], family) == Count(xs, family) + if x == family then 1 else 0
  {
    assert (xs + [x])[..|xs|] == xs;
  }

  lemma FamilyTurnsMore(trace: seq<Turn>, m: nat, family: string)
    requires m < |trace| && family != ""
    ensures var n := |trace| - 1;
            && FamilyTurns(trace, m) == FamilyTurns(trace[..n], m) + (if trace[n].rssFamily != "" then {n} else {})
            && TurnsOf(trace, m, family) == TurnsOf(trace[..n], m, family) + if trace[n].rssFamily == family then {n} else {}
  {
  }

  // The remembered families are those of some end of the trace.
  lemma {:induction false} RememberedFrom(trace: seq<Turn>, n: nat) returns (m: nat)
    ensures m <= |trace| && RssFamilies(trace[m..]) == LastN(RssFamilies(trace), n)
    decreases |trace|
  {
    if |RssFamilies(trace)| <= n {
      m := 0;
      assert trace[0..] == trace;
    } else {
      FirstFamily(trace);
      m := RememberedFrom(trace[1..], n);
      assert trace[1..][m..] == trace[m + 1..];
      m := m + 1;
    }
  }

  lemma {:induction false} FirstFamily(trace: seq<Turn>)
    requires trace != []
    ensures RssFamilies(trace) == (if trace[0].rssFamily == "" then [] else [trace[0].rssFamily]) + RssFamilies(trace[1..])
  {
    FamiliesConcat([trace[0]], trace[1..]);
    assert trace == [trace[0]] + trace[1..];
    assert RssFamilies([trace[0]]) == RssFamilies([]) + if trace[0].rssFamily == "" then [] else [trace[0].rssFamily];
  }

  lemma {:induction false} OftenAskedIs(trace: seq<Turn>, family: string, threshold: int)
    requires family != ""
    ensures OftenAsked(trace, family, threshold) <==> Count(LastN(RssFamilies(trace), RSS_WINDOW), family) >= threshold
  {
    var families := RssFamilies(trace);
    var m := RememberedFrom(trace, RSS_WINDOW);
    AsManyTurns(trace, m, family);
    if Count(LastN(families, RSS_WINDOW), family) >= threshold {
      assert OftenAskedFrom(trace, m, family, threshold);
    }
    if OftenAsked(trace, family, threshold) {
      var k: nat :| OftenAskedFrom(trace, k, family, threshold);
      AsManyTurns(trace, k, family);
      FamiliesConcat(trace[..k], trace[k..]);
      assert trace == trace[..k] + trace[k..];
      LastHolds(RssFamilies(trace[..k]), RssFamilies(trace[k..]), RSS_WINDOW, family);
    }
  }

  lemma {:induction false} LastHolds(a: seq<string>, b: seq<string>, n: nat, x: string)
    requires |b| <= n
    ensures Count(b, x) <= Count(LastN(a + b, n), x)
  {
    var kept := LastN(a + b, n);
    assert kept == kept[..|kept| - |b|] + b;
    CountConcat(kept[..|kept| - |b|], b, x);
  }

  // What the guards ask for each reason, of their counters and lists.
  ghost predicate Asks(reason: StopReason, trace: seq<Turn>, c: Config)
    requires trace != []
  {
    var t, families := trace[|trace| - 1], LastN(RssFamilies(trace), RSS_WINDOW);
    match reason
    case FailedSearchLoop => FailedSearchRun(trace) >= FAILED_SEARCH_THRESHOLD
    case RepeatedSignature => Run(Signatures(trace)) - 1 >= c.signatureThreshold
    case RepeatedSemantic => t.semantic != "" && Run(Semantics(trace)) - 1 >= c.semanticThreshold
    case RssFamilyChurn => t.rssFamily != "" && Count(families, t.rssFamily) >= c.rssFamilyThreshold
    case HeadlineConvergence => t.rssFamily != "" && c.rssOwned && |families| >= c.headlineTurnCap && t.rssSynthesis
    case ExplorationChurn => Churning(ExplorationBlock(trace), c)
    case _ => Meets(reason, trace, c)
  }

  lemma {:induction false} AsksWhatIsMet(reason: StopReason, trace: seq<Turn>, c: Config)
    requires trace != []
    ensures Asks(reason, trace, c) <==> Meets(reason, trace, c)
  {
    match reason
    case FailedSearchLoop => FailedRunIs(trace, FAILED_SEARCH_THRESHOLD);
    case RepeatedSignature => RepeatIs(trace, c.signatureThreshold);
    case RepeatedSemantic => RepeatIs(trace, c.semanticThreshold);
    case RssFamilyChurn => if trace[|trace| - 1].rssFamily != "" { OftenAskedIs(trace, trace[|trace| - 1].rssFamily, c.rssFamilyThreshold); }
    case HeadlineConvergence => if trace[|trace| - 1].rssFamily != "" { RememberedSize(trace); }
    case ExplorationChurn => ChurnIs(trace, c);
    case _ =>
  }

  lemma {:induction false} RepeatIs(trace: seq<Turn>, threshold: int)
    requires trace != []
    ensures Run(Signatures(trace)) - 1 >= threshold <==> LastSame(trace, Max(0, threshold) + 1)
    ensures Run(Semantics(trace)) - 1 >= threshold <==> LastSameMeaning(trace, Max(0, threshold) + 1)
  {
    SameRuns(trace, Max(0, threshold) + 1);
    RunsStart(trace);
  }

  lemma {:induction false} RememberedSize(trace: seq<Turn>)
    requires trace != [] && trace[|trace| - 1].rssFamily != ""
    ensures |LastN(RssFamilies(trace), RSS_WINDOW)| == Min(RSS_WINDOW, |FamilyTurns(trace, 0)|)
  {
    AsManyTurns(trace, 0, trace[|trace| - 1].rssFamily);
    assert trace[0..] == trace;
  }

  lemma {:induction false} StopAsks(trace: seq<Turn>, c: Config)
    requires trace != []
    ensures match Stop(trace, c)
            case Some(reason) => Asks(reason, trace, c) && forall r :: Order(r) < Order(reason) ==> !Asks(r, trace, c)
            case None => forall r :: !Asks(r, trace, c)
  {
  }

  /** A run is stopped for a reason exactly when its trace shows what that reason asks for and nothing
      that an earlier one does; and it goes on exactly when it shows nothing of the kind. */
  lemma {:induction false} StopMeans(trace: seq<Turn>, c: Config)
    requires trace != []
    ensures match Stop(trace, c)
            case Some(reason) => Meets(reason, trace, c) && forall r :: Order(r) < Order(reason) ==> !Meets(r, trace, c)
            case None => forall r :: !Meets(r, trace, c)
  {
    StopAsks(trace, c);
    forall r ensures Asks(r, trace, c) <==> Meets(r, trace, c) {
      AsksWhatIsMet(r, trace, c);
    }
  }

  lemma RunsStart(trace: seq<Turn>)
    requires trace != []
    ensures Run(Signatures(trace)) >= 1 && Run(Semantics(trace)) >= 1
  {
  }

  /** No run goes on after a window of exploration turns with too few different signatures. */
  lemma {:induction false} NoExplorationChurn(trace: seq<Turn>, c: Config, i: nat)
    requires Continued(trace, c) && i + Max(2, c.churnWindow) <= |trace|
    requires forall j | i <= j < i + Max(2, c.churnWindow) :: trace[j].exploration
    ensures |set j: nat | i <= j < i + Max(2, c.churnWindow) :: trace[j].signature| > Max(1, c.churnMaxUnique)
  {
    var window := Max(2, c.churnWindow);
    var part := trace[..i + window];
    assert forall j | i <= j < i + window :: part[j] == trace[j];
    StopMeans(part, c);
    assert Stop(part, c).None? && !Meets(ExplorationChurn, part, c);
    assert SignaturesFrom(part, i) == set j: nat | i <= j < i + window :: trace[j].signature;
  }
}
