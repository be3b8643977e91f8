/** The convergence policy of the agent loop.

    The loop keeps counters and short lists. Here each is tied to the question it answers about the
    whole trace of tool turns, and the stop decision to the trace alone. */
module LoopGuards {
  import opened Basics
  import opened Messages

  datatype Config = Config(
    signatureThreshold: int,
    semanticThreshold: int,
    rssFamilyThreshold: int,
    headlineTurnCap: int,
    churnWindow: int,
    churnMaxUnique: int,
    rssOwned: bool,
    maxTurns: int)

  const FAILED_SEARCH_THRESHOLD := 5
  const RSS_WINDOW := 6

  // What one executed tool turn showed. The signature is never empty; the semantic signature and
  // the feed-query family are empty when the turn has none. The last five fields say what each
  // attempt at a synthesis and the history would answer if asked.
  datatype Turn = Turn(
    number: int,
    signature: string,
    semantic: string,
    document: bool,
    exploration: bool,
    rssFamily: string,
    failedDelete: bool,
    handoff: bool,
    failedSearch: bool,
    rssSynthesis: bool,
    summarySynthesis: bool,
    budgetSynthesis: bool,
    summaryEvidence: bool,
    searchesLibrary: bool)

  datatype StopReason =
    | FailedDelete | TaskHandoff | FailedSearchLoop | RepeatedSignature | RepeatedSemantic
    | RssFamilyChurn | HeadlineConvergence | SummaryThenSearch | TurnBudgetNear | ExplorationChurn

  // --- What the trace says ---

  // The number of equal elements at the end.
  function Run(xs: seq<string>): nat {
    if |xs| <= 1 then |xs|
    else if xs[|xs| - 1] == xs[|xs| - 2] then Run(xs[..|xs| - 1]) + 1
    else 1
  }

  function Signatures(trace: seq<Turn>): (r: seq<string>)
    ensures |r| == |trace|
    ensures forall i | 0 <= i < |trace| :: r[i] == trace[i].signature
  {
    seq(|trace|, i requires 0 <= i < |trace| => trace[i].signature)
  }

  function Semantics(trace: seq<Turn>): (r: seq<string>)
    ensures |r| == |trace|
    ensures forall i | 0 <= i < |trace| :: r[i] == trace[i].semantic
  {
    seq(|trace|, i requires 0 <= i < |trace| => trace[i].semantic)
  }

  function FailedSearchRun(trace: seq<Turn>): nat {
    if trace == [] || !trace[|trace| - 1].failedSearch then 0 else FailedSearchRun(trace[..|trace| - 1]) + 1
  }

  // Signatures of the uninterrupted exploration turns at the end.
  function ExplorationBlock(trace: seq<Turn>): seq<string> {
    if trace == [] || !trace[|trace| - 1].exploration then []
    else ExplorationBlock(trace[..|trace| - 1]) + [trace[|trace| - 1].signature]
  }

  function RssFamilies(trace: seq<Turn>): seq<string> {
    if trace == [] then []
    else RssFamilies(trace[..|trace| - 1])
         + if trace[|trace| - 1].rssFamily == "" then [] else [trace[|trace| - 1].rssFamily]
  }

  function LastN(xs: seq<string>, n: nat): seq<string> {
    if |xs| <= n then xs else xs[|xs| - n..]
  }

  function Count(xs: seq<string>, x: string): nat {
    if xs == [] then 0 else Count(xs[..|xs| - 1], x) + if xs[|xs| - 1] == x then 1 else 0
  }

  function Window(c: Config): nat { Max(2, c.churnWindow) }

  predicate Churning(signatures: seq<string>, c: Config) {
    && signatures != [] && |signatures| >= Window(c)
    && |set s | s in LastN(signatures, Window(c))| <= Max(1, c.churnMaxUnique)
  }

  // The decision after the last turn of a trace.
  function Stop(trace: seq<Turn>, c: Config): Option<StopReason>
    requires trace != []
  {
    var t := trace[|trace| - 1];
    var families := LastN(RssFamilies(trace), RSS_WINDOW);
    if t.failedDelete then Some(FailedDelete)
    else if t.handoff then Some(TaskHandoff)
    else if FailedSearchRun(trace) >= FAILED_SEARCH_THRESHOLD then Some(FailedSearchLoop)
    else if Run(Signatures(trace)) - 1 >= c.signatureThreshold then Some(RepeatedSignature)
    else if t.semantic != "" && Run(Semantics(trace)) - 1 >= c.semanticThreshold then Some(RepeatedSemantic)
    else if t.rssFamily != "" && Count(families, t.rssFamily) >= c.rssFamilyThreshold then Some(RssFamilyChurn)
    else if t.rssFamily != "" && c.rssOwned && |families| >= c.headlineTurnCap && t.rssSynthesis
    then Some(HeadlineConvergence)
    else if t.document && t.summaryEvidence && t.searchesLibrary && t.summarySynthesis then Some(SummaryThenSearch)
    else if t.document && t.number >= c.maxTurns - 1 && t.budgetSynthesis then Some(TurnBudgetNear)
    else if Churning(ExplorationBlock(trace), c) then Some(ExplorationChurn)
    else None
  }

  // --- The incremental state ---

  class AgentLoopState {
    var consecutiveFailedSearchTurns: nat
    var previousToolSignature: string
    var repeatedToolSignatureCount: nat
    var previousSemanticToolSignature: string
    var repeatedSemanticToolSignatureCount: nat
    var recentExplorationSignatures: seq<string>
    var recentRssQueryFamilySignatures: seq<string>
    var priorRecentFeedFetches: nat
    var emptyFinalRetries: nat

    constructor ()
      ensures forall c :: Tracks([], c)
      ensures priorRecentFeedFetches == emptyFinalRetries == 0
    {
      consecutiveFailedSearchTurns, priorRecentFeedFetches, emptyFinalRetries := 0, 0, 0;
      previousToolSignature, repeatedToolSignatureCount := "", 0;
      previousSemanticToolSignature, repeatedSemanticToolSignatureCount := "", 0;
      recentExplorationSignatures, recentRssQueryFamilySignatures := [], [];
    }

    ghost predicate TracksSignatures(trace: seq<Turn>, c: Config)
      reads this`previousToolSignature, this`repeatedToolSignatureCount, this`previousSemanticToolSignature,
        this`repeatedSemanticToolSignatureCount, this`recentExplorationSignatures, this`recentRssQueryFamilySignatures
    {
      && previousToolSignature == (if trace == [] then "" else trace[|trace| - 1].signature)
      && repeatedToolSignatureCount == (if trace == [] then 0 else Run(Signatures(trace)) - 1)
      && previousSemanticToolSignature == (if trace == [] then "" else trace[|trace| - 1].semantic)
      && repeatedSemanticToolSignatureCount
         == (if trace == [] || trace[|trace| - 1].semantic == "" then 0 else Run(Semantics(trace)) - 1)
      && recentExplorationSignatures == LastN(ExplorationBlock(trace), Window(c))
      && recentRssQueryFamilySignatures == LastN(RssFamilies(trace), RSS_WINDOW)
    }

    ghost predicate Tracks(trace: seq<Turn>, c: Config)
      reads this`previousToolSignature, this`repeatedToolSignatureCount, this`previousSemanticToolSignature,
        this`repeatedSemanticToolSignatureCount, this`recentExplorationSignatures, this`recentRssQueryFamilySignatures,
        this`consecutiveFailedSearchTurns
    {
      TracksSignatures(trace, c) && consecutiveFailedSearchTurns == FailedSearchRun(trace)
    }

    method RecordSignatures(t: Turn, c: Config, ghost trace: seq<Turn>)
      requires t.signature != "" && Tracks(trace, c)
      modifies this`previousToolSignature, this`repeatedToolSignatureCount, this`previousSemanticToolSignature,
        this`repeatedSemanticToolSignatureCount, this`recentExplorationSignatures, this`recentRssQueryFamilySignatures
      ensures TracksSignatures(trace + [t], c)
    {
      RunMore(trace, t);
      ListsMore(trace, t, c);
      if t.signature == previousToolSignature {
        repeatedToolSignatureCount := repeatedToolSignatureCount + 1;
      } else {
        repeatedToolSignatureCount := 0;
        previousToolSignature := t.signature;
      }
      if t.semantic != "" && t.semantic == previousSemanticToolSignature {
        repeatedSemanticToolSignatureCount := repeatedSemanticToolSignatureCount + 1;
      } else {
        repeatedSemanticToolSignatureCount := 0;
        previousSemanticToolSignature := t.semantic;
      }
      if t.exploration {
        recentExplorationSignatures := LastN(recentExplorationSignatures + [t.signature], Window(c));
      } else {
        recentExplorationSignatures := [];
      }
      if t.rssFamily != "" {
        recentRssQueryFamilySignatures := LastN(recentRssQueryFamilySignatures + [t.rssFamily], RSS_WINDOW);
      }
    }

    // An empty answer is asked for once more; the tool-turn bookkeeping is not concerned.
    method CountEmptyAnswer(c: Config, ghost trace: seq<Turn>)
      requires Tracks(trace, c)
      modifies this`emptyFinalRetries
      ensures emptyFinalRetries == old(emptyFinalRetries) + 1 && Tracks(trace, c)
    {
      emptyFinalRetries := emptyFinalRetries + 1;
    }

    // The count of feed calls a turn leaves behind; the tool-turn bookkeeping is not concerned.
    method KeepFeedCount(count: nat, c: Config, ghost trace: seq<Turn>)
      requires Tracks(trace, c)
      modifies this`priorRecentFeedFetches
      ensures priorRecentFeedFetches == count && Tracks(trace, c)
    {
      priorRecentFeedFetches := count;
    }

    method CountSearch(t: Turn, ghost trace: seq<Turn>)
      requires consecutiveFailedSearchTurns == FailedSearchRun(trace)
      modifies this`consecutiveFailedSearchTurns
      ensures consecutiveFailedSearchTurns == FailedSearchRun(trace + [t])
    {
      FailedMore(trace, t);
      consecutiveFailedSearchTurns := if t.failedSearch then consecutiveFailedSearchTurns + 1 else 0;
    }

    /** Record one executed tool turn and decide whether the run must stop. */
    method ExecuteToolTurn(t: Turn, c: Config, ghost trace: seq<Turn>) returns (stop: Option<StopReason>)
      requires t.signature != "" && Tracks(trace, c)
      modifies this`previousToolSignature, this`repeatedToolSignatureCount, this`previousSemanticToolSignature,
        this`repeatedSemanticToolSignatureCount, this`recentExplorationSignatures, this`recentRssQueryFamilySignatures,
        this`consecutiveFailedSearchTurns
      ensures stop == Stop(trace + [t], c)
      ensures stop.None? ==> Tracks(trace + [t], c)
    {
      RecordSignatures(t, c, trace);
      assert (trace + [t])[|trace + [t]| - 1] == t;
      if t.failedDelete {
        return Some(FailedDelete);
      }
      if t.handoff {
        return Some(TaskHandoff);
      }
      CountSearch(t, trace);
      if consecutiveFailedSearchTurns >= FAILED_SEARCH_THRESHOLD {
        return Some(FailedSearchLoop);
      }
      stop := StopByHistory(t, c, trace + [t]);
    }

    // The checks that look at the recorded signatures and the evidence so far.
    method StopByHistory(t: Turn, c: Config, ghost trace: seq<Turn>) returns (stop: Option<StopReason>)
      requires trace != [] && trace[|trace| - 1] == t && TracksSignatures(trace, c)
      requires !t.failedDelete && !t.handoff && FailedSearchRun(trace) < FAILED_SEARCH_THRESHOLD
      ensures stop == Stop(trace, c)
    {
      if repeatedToolSignatureCount >= c.signatureThreshold {
        return Some(RepeatedSignature);
      }
      if t.semantic != "" && repeatedSemanticToolSignatureCount >= c.semanticThreshold {
        return Some(RepeatedSemantic);
      }
      if t.rssFamily != "" {
        if Count(recentRssQueryFamilySignatures, t.rssFamily) >= c.rssFamilyThreshold {
          return Some(RssFamilyChurn);
        }
        if c.rssOwned && |recentRssQueryFamilySignatures| >= c.headlineTurnCap && t.rssSynthesis {
          return Some(HeadlineConvergence);
        }
      }
      if t.document && t.summaryEvidence && t.searchesLibrary && t.summarySynthesis {
        return Some(SummaryThenSearch);
      }
      if t.document && t.number >= c.maxTurns - 1 && t.budgetSynthesis {
        return Some(TurnBudgetNear);
      }
      ChurnOnWindow(ExplorationBlock(trace), c);
      if Churning(recentExplorationSignatures, c) {
        return Some(ExplorationChurn);
      }
      stop := None;
    }
  }

  lemma RunMore(trace: seq<Turn>, t: Turn)
    ensures var after := trace + [t];
            && Run(Signatures(after))
               == (if trace != [] && trace[|trace| - 1].signature == t.signature then Run(Signatures(trace)) + 1 else 1)
            && Run(Semantics(after))
               == (if trace != [] && trace[|trace| - 1].semantic == t.semantic then Run(Semantics(trace)) + 1 else 1)
    ensures trace != [] ==> Run(Signatures(trace)) >= 1 && Run(Semantics(trace)) >= 1
  {
    assert Signatures(trace + [t])[..|trace|] == Signatures(trace);
    assert Semantics(trace + [t])[..|trace|] == Semantics(trace);
  }

  lemma FailedMore(trace: seq<Turn>, t: Turn)
    ensures FailedSearchRun(trace + [t]) == if t.failedSearch then FailedSearchRun(trace) + 1 else 0
  {
    assert (trace + [t])[..|trace|] == trace;
  }

  lemma LastNMore(xs: seq<string>, x: string, n: nat)
    requires n >= 1
    ensures LastN(LastN(xs, n) + [x], n) == LastN(xs + [x], n)
  {
  }

  lemma ListsMore(trace: seq<Turn>, t: Turn, c: Config)
    ensures ExplorationBlock(trace + [t]) == if t.exploration then ExplorationBlock(trace) + [t.signature] else []
    ensures RssFamilies(trace + [t]) == if t.rssFamily == "" then RssFamilies(trace) else RssFamilies(trace) + [t.rssFamily]
    ensures LastN(LastN(ExplorationBlock(trace), Window(c)) + [t.signature], Window(c))
            == LastN(ExplorationBlock(trace) + [t.signature], Window(c))
    ensures LastN(LastN(RssFamilies(trace), RSS_WINDOW) + [t.rssFamily], RSS_WINDOW)
            == LastN(RssFamilies(trace) + [t.rssFamily], RSS_WINDOW)
  {
    assert (trace + [t])[..|trace|] == trace;
    LastNMore(ExplorationBlock(trace), t.signature, Window(c));
    LastNMore(RssFamilies(trace), t.rssFamily, RSS_WINDOW);
  }

  // The window is all that churn detection looks at.
  lemma ChurnOnWindow(block: seq<string>, c: Config)
    ensures Churning(LastN(block, Window(c)), c) == Churning(block, c)
  {
    assert LastN(LastN(block, Window(c)), Window(c)) == LastN(block, Window(c));
  }

  // --- What a run that was allowed to go on cannot contain ---

  ghost predicate Continued(trace: seq<Turn>, c: Config) {
    forall n | 1 <= n <= |trace| :: Stop(trace[..n], c).None?
  }

  lemma {:induction false} RunMeans(xs: seq<string>, k: nat)
    requires 1 <= k <= |xs|
    ensures Run(xs) >= k <==> forall i | |xs| - k <= i < |xs| :: xs[i] == xs[|xs| - 1]
  {
    if k > 1 {
      var before := xs[..|xs| - 1];
      RunMeans(before, k - 1);
      if xs[|xs| - 1] == xs[|xs| - 2] {
        assert forall i | |before| - (k - 1) <= i < |before| :: before[i] == xs[i];
      }
    }
  }

  lemma RunAt(trace: seq<Turn>, n: nat)
    requires n <= |trace|
    ensures Signatures(trace[..n]) == Signatures(trace)[..n] && Semantics(trace[..n]) == Semantics(trace)[..n]
  {
  }

  /** No run goes on after threshold + 1 equal consecutive tool turns. */
  lemma NoRepeatedSignature(trace: seq<Turn>, c: Config, i: nat)
    requires Continued(trace, c) && i + Max(0, c.signatureThreshold) < |trace|
    ensures exists j | i <= j <= i + Max(0, c.signatureThreshold) ::
      trace[j].signature != trace[i + Max(0, c.signatureThreshold)].signature
  {
    var last := i + Max(0, c.signatureThreshold);
    RunAt(trace, last + 1);
    RunMeans(Signatures(trace[..last + 1]), Max(0, c.signatureThreshold) + 1);
    assert Stop(trace[..last + 1], c).None?;
    var j :| i <= j <= last && Signatures(trace[..last + 1])[j] != Signatures(trace[..last + 1])[last];
    assert trace[j].signature != trace[last].signature;
  }

  /** Nor after threshold + 1 consecutive turns with one non-empty semantic signature. */
  lemma NoRepeatedSemantic(trace: seq<Turn>, c: Config, i: nat)
    requires Continued(trace, c) && i + Max(0, c.semanticThreshold) < |trace|
    requires trace[i + Max(0, c.semanticThreshold)].semantic != ""
    ensures exists j | i <= j <= i + Max(0, c.semanticThreshold) ::
      trace[j].semantic != trace[i + Max(0, c.semanticThreshold)].semantic
  {
    var last := i + Max(0, c.semanticThreshold);
    RunAt(trace, last + 1);
    RunMeans(Semantics(trace[..last + 1]), Max(0, c.semanticThreshold) + 1);
    assert Stop(trace[..last + 1], c).None?;
    var j :| i <= j <= last && Semantics(trace[..last + 1])[j] != Semantics(trace[..last + 1])[last];
    assert trace[j].semantic != trace[last].semantic;
  }

  lemma {:induction false} FailedRunMeans(trace: seq<Turn>, k: nat)
    requires k <= |trace|
    ensures (forall i | |trace| - k <= i < |trace| :: trace[i].failedSearch) ==> FailedSearchRun(trace) >= k
  {
    if k > 0 && forall i | |trace| - k <= i < |trace| :: trace[i].failedSearch {
      var before := trace[..|trace| - 1];
      assert forall i | |before| - (k - 1) <= i < |before| :: before[i] == trace[i];
      FailedRunMeans(before, k - 1);
    }
  }

  /** Nor after five consecutive failed searches. */
  lemma NoFailedSearchLoop(trace: seq<Turn>, c: Config, i: nat)
    requires Continued(trace, c) && i + FAILED_SEARCH_THRESHOLD <= |trace|
    ensures exists j | i <= j < i + FAILED_SEARCH_THRESHOLD :: !trace[j].failedSearch
  {
    var n := i + FAILED_SEARCH_THRESHOLD;
    FailedRunMeans(trace[..n], FAILED_SEARCH_THRESHOLD);
    assert Stop(trace[..n], c).None?;
    var j :| i <= j < n && !trace[..n][j].failedSearch;
    assert !trace[j].failedSearch;
  }

  lemma {:induction false} CountTail(xs: seq<string>, x: string)
    requires xs != []
    ensures Count(xs[1..], x) <= Count(xs, x)
  {
    if |xs| > 1 {
      var n := |xs| - 1;
      CountTail(xs[..n], x);
      assert xs[1..][..n - 1] == xs[..n][1..];
    }
  }

  lemma CountWindow(xs: seq<string>, x: string, f: string, n: nat)
    requires n >= 1
    ensures Count(LastN(xs + [x], n), f) <= Count(LastN(xs, n), f) + if x == f then 1 else 0
  {
    var w := LastN(xs, n);
    assert (w + [x])[..|w|] == w;
    if |xs| >= n {
      assert LastN(xs + [x], n) == (w + [x])[1..];
      CountTail(w + [x], f);
    } else {
      assert LastN(xs + [x], n) == w + [x];
    }
  }

  /** Nor with any feed-query family at its threshold among the last six. */
  lemma {:induction false} NoFamilyAtThreshold(trace: seq<Turn>, c: Config, f: string)
    requires Continued(trace, c) && c.rssFamilyThreshold >= 1
    ensures Count(LastN(RssFamilies(trace), RSS_WINDOW), f) < c.rssFamilyThreshold
  {
    if trace != [] {
      var n := |trace| - 1;
      ContinuedBefore(trace, c);
      NoFamilyAtThreshold(trace[..n], c, f);
      assert trace[..|trace|] == trace;
      assert Stop(trace, c).None?;
      if trace[n].rssFamily != "" && trace[n].rssFamily != f {
        CountWindow(RssFamilies(trace[..n]), trace[n].rssFamily, f, RSS_WINDOW);
      } else if trace[n].rssFamily == f && f != "" {
      } else {
        assert RssFamilies(trace) == RssFamilies(trace[..n]);
      }
    }
  }

  lemma ContinuedBefore(trace: seq<Turn>, c: Config)
    requires trace != [] && Continued(trace, c)
    ensures Continued(trace[..|trace| - 1], c)
  {
    var before := trace[..|trace| - 1];
    forall n | 1 <= n <= |before| ensures Stop(before[..n], c).None? {
      assert before[..n] == trace[..n];
    }
  }

  lemma ContinuedMore(trace: seq<Turn>, t: Turn, c: Config)
    requires Continued(trace, c) && Stop(trace + [t], c).None?
    ensures Continued(trace + [t], c)
  {
    forall n | 1 <= n <= |trace| + 1 ensures Stop((trace + [t])[..n], c).None? {
      if n <= |trace| {
        assert (trace + [t])[..n] == trace[..n];
      } else {
        assert (trace + [t])[..n] == trace + [t];
      }
    }
  }
}
