/** The in-memory registry of running chat turns and of recent prompts, per session.

    Every method runs under one lock; `done` stands for the tasks that have finished, which the
    registry asks about but does not control. */
module ChatRuns {
  import opened Basics
  import Text

  type Session = int
  type Task = int

  // --- Duplicate-send claims, on values ---

  // A recent prompt (or client send id) of a session.
  datatype Recent = Recent(key: string, timestamp: real, active: bool)

  type Table = map<Session, Recent>

  // A key is turned down while the session's recent entry is the same key, touched within the window.
  predicate Accepts(t: Table, s: Session, key: string, now: real, window: real) {
    !(s in t && t[s].key == key && now - t[s].timestamp <= window)
  }

  datatype Operation = Claim(session: Session, key: string, now: real) | Finish(session: Session, key: string, now: real)

  function Perform(t: Table, op: Operation, window: real): Table {
    match op
    case Claim(s, key, now) =>
      if key != "" && Accepts(t, s, key, now, window) then t[s := Recent(key, now, true)] else t
    case Finish(s, key, now) =>
      if key != "" && s in t && t[s].key == key then t[s := Recent(key, now, false)] else t
  }

  function After(ops: seq<Operation>, window: real): Table {
    if ops == [] then map[] else Perform(After(ops[..|ops| - 1], window), ops[|ops| - 1], window)
  }

  // The i-th operation is a claim of a key that was granted.
  predicate Granted(ops: seq<Operation>, i: nat, s: Session, key: string, window: real)
    requires i < |ops|
  {
    && ops[i].Claim? && ops[i].session == s && ops[i].key == key && key != ""
    && Accepts(After(ops[..i], window), s, key, ops[i].now, window)
  }

  // The i-th operation updates the session's entry for a key: a granted claim, or its finish.
  predicate Touches(ops: seq<Operation>, i: nat, s: Session, key: string, window: real)
    requires i < |ops|
  {
    || Granted(ops, i, s, key, window)
    || (ops[i].Finish? && ops[i].session == s && ops[i].key == key && key != ""
        && s in After(ops[..i], window) && After(ops[..i], window)[s].key == key)
  }

  lemma AfterMore(ops: seq<Operation>, n: nat, window: real)
    requires n < |ops|
    ensures After(ops[..n + 1], window) == Perform(After(ops[..n], window), ops[n], window)
  {
    assert ops[..n + 1][..n] == ops[..n];
  }

  // No other key was granted to the session strictly between two operations.
  ghost predicate NoOtherGrant(ops: seq<Operation>, i: nat, j: nat, s: Session, key: string, window: real)
    requires i <= j <= |ops|
  {
    forall m, other | i < m < j && other != key :: !Granted(ops, m, s, other, window)
  }

  // A touch stamps the entry, and marks it active or finished; anything else leaves it alone.
  lemma EntryStep(ops: seq<Operation>, n: nat, s: Session, key: string, window: real)
    requires n < |ops| && key != ""
    requires s in After(ops[..n], window) && After(ops[..n], window)[s].key == key
    requires ops[n].key != key ==> !Granted(ops, n, s, ops[n].key, window)
    ensures s in After(ops[..n + 1], window)
    ensures After(ops[..n + 1], window)[s]
            == if Touches(ops, n, s, key, window) then Recent(key, ops[n].now, ops[n].Claim?)
               else After(ops[..n], window)[s]
  {
    AfterMore(ops, n, window);
  }

  // After a granted claim, and until another key is granted, the entry is the key's, stamped with
  // its last touch, and active exactly when that was a claim.
  lemma {:induction false} EntryIsLastTouch(ops: seq<Operation>, i: nat, j: nat, s: Session, key: string, window: real)
    returns (touch: nat)
    requires i < j <= |ops| && Granted(ops, i, s, key, window) && NoOtherGrant(ops, i, j, s, key, window)
    ensures i <= touch < j && Touches(ops, touch, s, key, window)
    ensures forall m | touch < m < j :: !Touches(ops, m, s, key, window)
    ensures s in After(ops[..j], window) && After(ops[..j], window)[s] == Recent(key, ops[touch].now, ops[touch].Claim?)
    decreases j
  {
    if j == i + 1 {
      AfterMore(ops, i, window);
      touch := i;
    } else {
      touch := EntryIsLastTouch(ops, i, j - 1, s, key, window);
      EntryStep(ops, j - 1, s, key, window);
      if Touches(ops, j - 1, s, key, window) {
        touch := j - 1;
      }
    }
  }

  /** Two granted claims of one prompt in one session are separated by a granted claim of another
      prompt, or by more than the window since the prompt's last touch before the second. */
  lemma GrantsAreSeparated(ops: seq<Operation>, i: nat, j: nat, s: Session, key: string, window: real)
    returns (touch: nat)
    requires i < j < |ops| && Granted(ops, i, s, key, window) && Granted(ops, j, s, key, window)
    ensures i <= touch < j
    ensures (exists m, other :: i < m < j && other != key && Granted(ops, m, s, other, window))
            || (Touches(ops, touch, s, key, window)
                && (forall m | touch < m < j :: !Touches(ops, m, s, key, window))
                && ops[j].now - ops[touch].now > window)
  {
    touch := i;
    if NoOtherGrant(ops, i, j, s, key, window) {
      touch := EntryIsLastTouch(ops, i, j, s, key, window);
    }
  }

  /** And the other way round: a claim made within the window of the last touch is turned down. */
  lemma QuickRepeatIsTurnedDown(ops: seq<Operation>, i: nat, j: nat, s: Session, key: string, window: real)
    requires i < j < |ops| && Granted(ops, i, s, key, window) && NoOtherGrant(ops, i, j, s, key, window)
    requires forall m | i <= m < j && Touches(ops, m, s, key, window) :: ops[j].now - ops[m].now <= window
    ensures !Granted(ops, j, s, key, window)
  {
    var touch := EntryIsLastTouch(ops, i, j, s, key, window);
  }

  // A session's entry comes from the last grant of its key, with no other one granted since.
  lemma {:induction false} EntryComesFrom(ops: seq<Operation>, n: nat, s: Session, window: real) returns (i: nat)
    requires n <= |ops| && s in After(ops[..n], window)
    ensures i < n && var key := After(ops[..n], window)[s].key;
                     key != "" && Granted(ops, i, s, key, window) && NoOtherGrant(ops, i, n, s, key, window)
    decreases n
  {
    var key := After(ops[..n], window)[s].key;
    assert n > 0;
    AfterMore(ops, n - 1, window);
    if ops[n - 1].key != "" && Granted(ops, n - 1, s, ops[n - 1].key, window) {
      i := n - 1;
    } else {
      i := EntryComesFrom(ops, n - 1, s, window);
      forall m, other | i < m < n && other != key ensures !Granted(ops, m, s, other, window) {
      }
    }
  }

  /** Only a quick repeat is turned down: if a claim is, then its prompt was granted before, no other
      one has been granted since, and its last touch is within the window. */
  lemma {:induction false} OnlyRepeatsAreTurnedDown(ops: seq<Operation>, j: nat, s: Session, key: string, window: real)
    returns (i: nat, touch: nat)
    requires j < |ops| && ops[j].Claim? && ops[j].session == s && ops[j].key == key != "" && !Granted(ops, j, s, key, window)
    ensures i <= touch < j && Granted(ops, i, s, key, window) && NoOtherGrant(ops, i, j, s, key, window)
    ensures Touches(ops, touch, s, key, window) && forall m | touch < m < j :: !Touches(ops, m, s, key, window)
    ensures ops[j].now - ops[touch].now <= window
  {
    i := EntryComesFrom(ops, j, s, window);
    touch := EntryIsLastTouch(ops, i, j, s, key, window);
  }

  // --- The registry of running tasks, on values ---

  datatype RunOperation =
    | Register(session: Session, task: Task, runId: Option<string>)
    | Clear(session: Session, only: Option<Task>)

  datatype Runs = Runs(tasks: map<Session, Task>, ids: map<Session, string>)

  function PerformRun(r: Runs, op: RunOperation): Runs {
    match op
    case Register(s, task, runId) =>
      Runs(r.tasks[s := task], if runId.Some? && runId.value != "" then r.ids[s := runId.value] else r.ids - {s})
    case Clear(s, task) =>
      if s !in r.tasks || (task.Some? && r.tasks[s] != task.value) then r
      else Runs(r.tasks - {s}, r.ids - {s})
  }

  function RunsAfter(ops: seq<RunOperation>): Runs {
    if ops == [] then Runs(map[], map[]) else PerformRun(RunsAfter(ops[..|ops| - 1]), ops[|ops| - 1])
  }

  // The operation that put a session's current task there: the last registration, not cleared since.
  ghost predicate IsCurrent(ops: seq<RunOperation>, i: nat, s: Session)
    requires i < |ops|
  {
    && ops[i].Register? && ops[i].session == s
    && forall m | i < m < |ops| && ops[m].session == s :: ops[m].Clear? && ops[m].only.Some? && ops[m].only.value != ops[i].task
  }

  /** A stored task is the one last registered, and a stored run id was registered together with it. */
  lemma {:induction false} StoredTogether(ops: seq<RunOperation>, s: Session) returns (i: nat)
    ensures var r := RunsAfter(ops);
            && (s in r.ids ==> s in r.tasks)
            && (s in r.tasks ==>
                  && i < |ops| && IsCurrent(ops, i, s) && r.tasks[s] == ops[i].task
                  && (s in r.ids <==> ops[i].runId.Some? && ops[i].runId.value != "")
                  && (s in r.ids ==> Some(r.ids[s]) == ops[i].runId))
  {
    i := 0;
    if ops != [] {
      var n := |ops| - 1;
      i := StoredTogether(ops[..n], s);
      if ops[n].Register? && ops[n].session == s {
        i := n;
      }
    }
  }

  /** Clearing with a task that is no longer the session's own changes nothing. */
  lemma StaleClearIsIgnored(ops: seq<RunOperation>, s: Session, task: Task)
    requires s in RunsAfter(ops).tasks && RunsAfter(ops).tasks[s] != task
    ensures RunsAfter(ops + [Clear(s, Some(task))]) == RunsAfter(ops)
  {
    assert (ops + [Clear(s, Some(task))])[..|ops|] == ops;
  }

  // --- The manager ---

  function NormalizePrompt(prompt: string): string {
    Text.Strip(Text.Collapse(prompt))
  }

  /** A prompt has a key exactly if it is not blank, and two prompts share one exactly if they are the
      same words. */
  lemma {:induction false} NormalizedMeans(a: string, b: string)
    ensures NormalizePrompt(a) == "" <==> Text.AllSpace(a)
    ensures NormalizePrompt(a) == NormalizePrompt(b) <==> Text.Words(a) == Text.Words(b)
  {
    Text.CollapseMeans(a, b);
    Text.CollapseMeans(b, a);
    Text.StripOfStripped(Text.Collapse(a));
    Text.StripOfStripped(Text.Collapse(b));
  }

  class ChatRunManager {
    const duplicateWindow: real
    const digest: string -> string
    var activeRuns: map<Session, Task>
    var activeRunIds: map<Session, string>
    var recentPrompts: Table
    var fingerprints: map<Session, string>
    var recentSendIds: Table
    var cancelled: set<Task>

    constructor (duplicateWindow: real, digest: string -> string)
      ensures this.duplicateWindow == duplicateWindow && this.digest == digest
      ensures HoldsRuns([]) && HoldsPrompts([]) && HoldsSendIds([]) && cancelled == {}
    {
      this.duplicateWindow, this.digest := duplicateWindow, digest;
      activeRuns, activeRunIds, cancelled := map[], map[], {};
      recentPrompts, fingerprints, recentSendIds := map[], map[], map[];
    }

    ghost predicate HoldsRuns(ops: seq<RunOperation>)
      reads this
    {
      Runs(activeRuns, activeRunIds) == RunsAfter(ops)
    }

    ghost predicate HoldsPrompts(ops: seq<Operation>)
      reads this
    {
      && recentPrompts == After(ops, duplicateWindow)
      && forall s | s in recentPrompts :: s in fingerprints && fingerprints[s] == digest(recentPrompts[s].key)
    }

    ghost predicate HoldsSendIds(ops: seq<Operation>)
      reads this
    {
      recentSendIds == After(ops, duplicateWindow)
    }

    method RegisterRun(s: Session, task: Task, runId: Option<string>, ghost ops: seq<RunOperation>)
      requires HoldsRuns(ops)
      modifies this`activeRuns, this`activeRunIds
      ensures HoldsRuns(ops + [Register(s, task, runId)])
    {
      assert (ops + [Register(s, task, runId)])[..|ops|] == ops;
      activeRuns := activeRuns[s := task];
      if runId.Some? && runId.value != "" {
        activeRunIds := activeRunIds[s := runId.value];
      } else {
        activeRunIds := activeRunIds - {s};
      }
    }

    method ClearRun(s: Session, task: Option<Task>, ghost ops: seq<RunOperation>)
      requires HoldsRuns(ops)
      modifies this`activeRuns, this`activeRunIds
      ensures HoldsRuns(ops + [Clear(s, task)])
    {
      assert (ops + [Clear(s, task)])[..|ops|] == ops;
      if s !in activeRuns {
        return;
      }
      if task.Some? && activeRuns[s] != task.value {
        return;
      }
      activeRuns := activeRuns - {s};
      activeRunIds := activeRunIds - {s};
    }

    /** Cancel a run only when it is still the session's active one: the task cancelled, if any, was
        registered together with exactly this run id and has not been replaced since. */
    method RequestStopRun(s: Session, runId: string, done: set<Task>, ghost ops: seq<RunOperation>)
      returns (stopped: bool, ghost registration: nat)
      requires HoldsRuns(ops)
      modifies this`cancelled
      ensures !stopped ==> cancelled == old(cancelled)
      ensures stopped ==>
        && registration < |ops| && IsCurrent(ops, registration, s)
        && ops[registration].runId == Some(Text.Strip(runId)) && ops[registration].task !in done
        && cancelled == old(cancelled) + {ops[registration].task}
      ensures stopped <==> s in activeRuns && activeRuns[s] !in done && s in activeRunIds && Text.Strip(runId) != ""
                           && activeRunIds[s] == Text.Strip(runId)
    {
      registration := StoredTogether(ops, s);
      var normalized := Text.Strip(runId);
      if normalized == "" || s !in activeRunIds || activeRunIds[s] != normalized {
        return false, registration;
      }
      if s !in activeRuns || activeRuns[s] in done {
        return false, registration;
      }
      cancelled := cancelled + {activeRuns[s]};
      stopped := true;
    }

    method RequestStop(s: Session, done: set<Task>) returns (stopped: bool)
      modifies this`cancelled
      ensures stopped <==> s in activeRuns && activeRuns[s] !in done
      ensures cancelled == if stopped then old(cancelled) + {activeRuns[s]} else old(cancelled)
    {
      if s !in activeRuns || activeRuns[s] in done {
        return false;
      }
      cancelled := cancelled + {activeRuns[s]};
      stopped := true;
    }

    function Fingerprint(prompt: string): string {
      if NormalizePrompt(prompt) == "" then "" else digest(NormalizePrompt(prompt))
    }

    // Granted or not, the fingerprint returned is that of the prompt, though it may be the stored one.
    method ClaimPrompt(s: Session, prompt: string, now: real, ghost ops: seq<Operation>)
      returns (claimed: bool, active: bool, fingerprint: string)
      requires HoldsPrompts(ops)
      modifies this`recentPrompts, this`fingerprints
      ensures fingerprint == Fingerprint(prompt)
      ensures var op := Claim(s, NormalizePrompt(prompt), now);
              && HoldsPrompts(ops + [op])
              && (claimed <==> op.key == "" || Granted(ops + [op], |ops|, s, op.key, duplicateWindow))
              && active == (!claimed && old(recentPrompts)[s].active)
    {
      var normalized := NormalizePrompt(prompt);
      assert (ops + [Claim(s, normalized, now)])[..|ops|] == ops;
      if normalized == "" {
        return true, false, "";
      }
      if s in recentPrompts && recentPrompts[s].key == normalized && now - recentPrompts[s].timestamp <= duplicateWindow {
        return false, recentPrompts[s].active, fingerprints[s];
      }
      fingerprint := digest(normalized);
      recentPrompts := recentPrompts[s := Recent(normalized, now, true)];
      fingerprints := fingerprints[s := fingerprint];
      claimed, active := true, false;
    }

    method ClaimClientSendId(s: Session, sendId: string, now: real, ghost ops: seq<Operation>)
      returns (claimed: bool, active: bool)
      requires HoldsSendIds(ops)
      modifies this`recentSendIds
      ensures var op := Claim(s, Text.Strip(sendId), now);
              && HoldsSendIds(ops + [op])
              && (claimed <==> op.key == "" || Granted(ops + [op], |ops|, s, op.key, duplicateWindow))
              && active == (!claimed && old(recentSendIds)[s].active)
    {
      var normalized := Text.Strip(sendId);
      assert (ops + [Claim(s, normalized, now)])[..|ops|] == ops;
      if normalized == "" {
        return true, false;
      }
      if s in recentSendIds && recentSendIds[s].key == normalized && now - recentSendIds[s].timestamp <= duplicateWindow {
        return false, recentSendIds[s].active;
      }
      recentSendIds := recentSendIds[s := Recent(normalized, now, true)];
      return true, false;
    }

    method MarkPromptFinished(s: Session, prompt: string, now: real, ghost ops: seq<Operation>)
      requires HoldsPrompts(ops)
      modifies this`recentPrompts
      ensures HoldsPrompts(ops + [Finish(s, NormalizePrompt(prompt), now)])
    {
      var normalized := NormalizePrompt(prompt);
      assert (ops + [Finish(s, normalized, now)])[..|ops|] == ops;
      if normalized == "" {
        return;
      }
      if s !in recentPrompts || recentPrompts[s].key != normalized {
        return;
      }
      recentPrompts := recentPrompts[s := recentPrompts[s].(active := false, timestamp := now)];
    }

    method MarkClientSendIdFinished(s: Session, sendId: string, now: real, ghost ops: seq<Operation>)
      requires HoldsSendIds(ops)
      modifies this`recentSendIds
      ensures HoldsSendIds(ops + [Finish(s, Text.Strip(sendId), now)])
    {
      var normalized := Text.Strip(sendId);
      assert (ops + [Finish(s, normalized, now)])[..|ops|] == ops;
      if normalized == "" {
        return;
      }
      if s !in recentSendIds || recentSendIds[s].key != normalized {
        return;
      }
      recentSendIds := recentSendIds[s := recentSendIds[s].(active := false, timestamp := now)];
    }
  }
}
