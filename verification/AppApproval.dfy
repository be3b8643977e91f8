/** Approval of a tool call requested by an embedded app: one pending row, any number of resolvers.

    The resolvers run concurrently; each is cut at its database and tool awaits into atomic steps.
    The select-for-update lock is held from the read of a pending row to the commit of the decision. */
module AppApproval {
  import opened Basics

  datatype Status = Pending | Executing | Completed | Failed | Denied | OtherStatus

  datatype Intent = Intent(server: string, resourceUri: string, tool: string, arguments: string)

  // The JSON a row carries, as far as a resolver tells it apart.
  datatype Stored = NotJson | NotAMutation | Mutation(intent: Intent)

  datatype Row = Row(owner: int, appTool: bool, stored: Stored, status: Status)

  datatype Response = NotFound | AlreadyResolved | Invalid | WasDenied | WasCompleted | ActionFailed

  datatype Phase =
    | Idle
    | Deciding(intent: Intent)
    | Approved(intent: Intent)
    | Called(succeeded: bool)
    | Answered(response: Response)
    | Crashed

  datatype Resolver = Resolver(user: int, approves: bool, phase: Phase)

  // `executor` is the resolver whose approval was committed; `calls` are the tool calls made.
  datatype State = State(
    row: Option<Row>,
    lock: Option<nat>,
    resolvers: seq<Resolver>,
    executor: Option<nat>,
    calls: seq<Intent>)

  // A call either returns, raises one of the exceptions the resolver handles, or something else.
  datatype CallOutcome = Returns | RaisesHandled | RaisesOther

  datatype Step = Read(i: nat) | CommitDecision(i: nat) | CallTool(i: nat, outcome: CallOutcome) | RecordOutcome(i: nat) | Crash(i: nat)

  // The row branch of the tool endpoint: a mutation is stored for approval, not executed.
  function NewApprovalRow(user: int, request: Intent): Row {
    Row(user, true, Mutation(request), Pending)
  }

  function At(s: State, i: nat): Phase {
    if i < |s.resolvers| then s.resolvers[i].phase else Crashed
  }

  function Move(s: State, i: nat, phase: Phase): State
    requires i < |s.resolvers|
  {
    s.(resolvers := s.resolvers[i := s.resolvers[i].(phase := phase)])
  }

  // What a resolver makes of the row it has just locked: an error, or the intent it may decide on.
  function Check(row: Row): (r: (Response, Option<Intent>)) {
    if !row.appTool then (NotFound, None)
    else if row.status != Pending then (AlreadyResolved, None)
    else match row.stored
      case Mutation(intent) => (WasCompleted, Some(intent))
      case _ => (Invalid, None)
  }

  /** One atomic step; a step that is not enabled changes nothing. */
  function Apply(s: State, step: Step): State {
    match step
    case Read(i) =>
      if At(s, i) != Idle then s
      else if s.row.None? || s.row.value.owner != s.resolvers[i].user then Move(s, i, Answered(NotFound))
      else if s.lock.Some? then s
      else (
        var (error, intent) := Check(s.row.value);
        if intent.None? then Move(s, i, Answered(error))
        else Move(s, i, Deciding(intent.value)).(lock := Some(i)))
    case CommitDecision(i) =>
      if !At(s, i).Deciding? || s.row.None? then s
      else if s.resolvers[i].approves
      then Move(s, i, Approved(At(s, i).intent)).(row := Some(s.row.value.(status := Executing)), lock := None, executor := Some(i))
      else Move(s, i, Answered(WasDenied)).(row := Some(s.row.value.(status := Denied)), lock := None)
    case CallTool(i, outcome) =>
      if !At(s, i).Approved? then s
      else Move(s, i, match outcome case Returns => Called(true) case RaisesHandled => Called(false) case RaisesOther => Crashed)
           .(calls := s.calls + [At(s, i).intent])
    case RecordOutcome(i) =>
      if !At(s, i).Called? || s.lock.Some? || s.row.None? then s
      else if At(s, i).succeeded
      then Move(s, i, Answered(WasCompleted)).(row := Some(s.row.value.(status := Completed)))
      else Move(s, i, Answered(ActionFailed)).(row := Some(s.row.value.(status := Failed)))
    case Crash(i) =>
      if i >= |s.resolvers| || At(s, i).Answered? then s
      else Move(s, i, Crashed).(lock := if s.lock == Some(i) then None else s.lock)
  }

  function Run(s: State, steps: seq<Step>): State {
    if steps == [] then s else Apply(Run(s, steps[..|steps| - 1]), steps[|steps| - 1])
  }

  ghost predicate Initial(s: State) {
    && s.lock.None? && s.executor.None? && s.calls == []
    && forall i | 0 <= i < |s.resolvers| :: s.resolvers[i].phase == Idle
  }

  ghost predicate IsIntent(s0: State, intent: Intent) {
    s0.row.Some? && s0.row.value.stored == Mutation(intent) && s0.row.value.status == Pending
  }

  predicate StatusIs(s: State, status: Status) {
    s.row.Some? && s.row.value.status == status
  }

  // The resolver answers for the owner of a row that an app tool has left.
  ghost predicate MayDecide(s: State, i: nat)
    requires i < |s.resolvers|
  {
    s.row.Some? && s.row.value.owner == s.resolvers[i].user && s.row.value.appTool
  }

  // What holds of one resolver's phase in any reachable state.
  ghost predicate PhaseOk(s0: State, s: State, i: nat)
    requires i < |s.resolvers|
  {
    match s.resolvers[i].phase
    case Idle => true
    case Crashed => true
    case Deciding(intent) => s.lock == Some(i) && MayDecide(s, i) && s.row.value.status == Pending && IsIntent(s0, intent)
    case Approved(intent) =>
      s.executor == Some(i) && s.row.Some? && s.row.value.status == Executing && s.calls == [] && IsIntent(s0, intent)
    case Called(ok) => s.executor == Some(i) && s.row.Some? && s.row.value.status == Executing && |s.calls| == 1
    case Answered(response) => AnswerOk(s0, s, i, response)
  }

  ghost predicate AnswerOk(s0: State, s: State, i: nat, response: Response)
    requires i < |s.resolvers|
  {
    match response
    case NotFound => !MayDecide(s, i)
    case WasDenied => MayDecide(s, i) && s.row.value.status == Denied && s.executor.None? && !s.resolvers[i].approves
    case WasCompleted => s.row.Some? && s.row.value.status == Completed && s.executor == Some(i) && |s.calls| == 1
    case ActionFailed => s.row.Some? && s.row.value.status == Failed && s.executor == Some(i) && |s.calls| == 1
    case AlreadyResolved => MayDecide(s, i) && s.row.value.status != Pending
    case Invalid => MayDecide(s, i) && !s.row.value.stored.Mutation?
  }

  predicate SameResolver(a: Resolver, b: Resolver) {
    a.user == b.user && a.approves == b.approves
  }

  ghost predicate Inv(s0: State, s: State) {
    && |s.resolvers| == |s0.resolvers|
    && (forall i | 0 <= i < |s.resolvers| :: SameResolver(s0.resolvers[i], s.resolvers[i]))
    && (s.executor.Some? ==> s.executor.value < |s.resolvers| && MayDecide(s, s.executor.value) && s.resolvers[s.executor.value].approves)
    && (s.row.Some? <==> s0.row.Some?)
    && (s.row.Some? ==> s.row.value == s0.row.value.(status := s.row.value.status))
    && (s.lock.Some? ==> s.lock.value < |s.resolvers| && s.resolvers[s.lock.value].phase.Deciding?)
    && |s.calls| <= 1 && (forall c | c in s.calls :: IsIntent(s0, c))
    && (s.executor.None? ==> s.calls == [] && (s.row.Some? ==> s.row.value.status in {s0.row.value.status, Denied}))
    && (s.executor.None? && s.row.Some? && s.row.value.status != s0.row.value.status ==> s0.row.value.status == Pending)
    && (s.executor.Some? ==> s.row.Some? && s0.row.value.status == Pending && s.row.value.status in {Executing, Completed, Failed})
    && forall i | 0 <= i < |s.resolvers| :: PhaseOk(s0, s, i)
  }

  lemma InvInitial(s0: State)
    requires Initial(s0)
    ensures Inv(s0, s0)
  {
  }

  lemma InvKept(s0: State, s: State, step: Step)
    requires Inv(s0, s)
    ensures Inv(s0, Apply(s, step))
  {
    if step.i < |s.resolvers| {
      match step
      case Read(i) => InvAfterRead(s0, s, i);
      case CommitDecision(i) => InvAfterDecision(s0, s, i);
      case CallTool(i, outcome) => InvAfterCall(s0, s, i, outcome);
      case RecordOutcome(i) => InvAfterRecord(s0, s, i);
      case Crash(i) => InvAfterCrash(s0, s, i);
    }
  }

  lemma InvAfterRead(s0: State, s: State, i: nat)
    requires Inv(s0, s) && i < |s.resolvers|
    ensures Inv(s0, Apply(s, Read(i)))
  {
    var after := Apply(s, Read(i));
    forall j | 0 <= j < |after.resolvers| ensures PhaseOk(s0, after, j) {
      PhaseAfterRead(s0, s, i, j);
    }
  }

  lemma PhaseAfterRead(s0: State, s: State, i: nat, j: nat)
    requires Inv(s0, s) && i < |s.resolvers| && j < |s.resolvers|
    ensures PhaseOk(s0, Apply(s, Read(i)), j)
  {
    assert PhaseOk(s0, s, i);
    assert PhaseOk(s0, s, j);
  }

  lemma InvAfterRecord(s0: State, s: State, i: nat)
    requires Inv(s0, s) && i < |s.resolvers|
    ensures Inv(s0, Apply(s, RecordOutcome(i)))
  {
    assert PhaseOk(s0, s, i);
    var after := Apply(s, RecordOutcome(i));
    forall j | 0 <= j < |after.resolvers| ensures PhaseOk(s0, after, j) {
      assert PhaseOk(s0, s, j);
    }
  }

  lemma InvAfterCrash(s0: State, s: State, i: nat)
    requires Inv(s0, s) && i < |s.resolvers|
    ensures Inv(s0, Apply(s, Crash(i)))
  {
    assert PhaseOk(s0, s, i);
    var after := Apply(s, Crash(i));
    forall j | 0 <= j < |after.resolvers| ensures PhaseOk(s0, after, j) {
      assert PhaseOk(s0, s, j);
    }
  }

  lemma InvAfterDecision(s0: State, s: State, i: nat)
    requires Inv(s0, s) && i < |s.resolvers|
    ensures Inv(s0, Apply(s, CommitDecision(i)))
  {
    var after := Apply(s, CommitDecision(i));
    assert PhaseOk(s0, s, i);
    forall j | 0 <= j < |after.resolvers| ensures PhaseOk(s0, after, j) {
      assert PhaseOk(s0, s, j);
    }
  }

  lemma InvAfterCall(s0: State, s: State, i: nat, outcome: CallOutcome)
    requires Inv(s0, s) && i < |s.resolvers|
    ensures Inv(s0, Apply(s, CallTool(i, outcome)))
  {
    var after := Apply(s, CallTool(i, outcome));
    assert PhaseOk(s0, s, i);
    forall j | 0 <= j < |after.resolvers| ensures PhaseOk(s0, after, j) {
      assert PhaseOk(s0, s, j);
    }
  }

  lemma {:induction false} InvAlways(s0: State, steps: seq<Step>)
    requires Initial(s0)
    ensures Inv(s0, Run(s0, steps))
  {
    if steps == [] {
      InvInitial(s0);
    } else {
      InvAlways(s0, steps[..|steps| - 1]);
      InvKept(s0, Run(s0, steps[..|steps| - 1]), steps[|steps| - 1]);
    }
  }

  /** Over every interleaving of any number of resolvers, crashes included, the approved call happens
      at most once, with the intent recorded in the row, and only if its approval was committed; a
      denied row has seen no call. */
  lemma AtMostOneCall(s0: State, steps: seq<Step>)
    requires Initial(s0)
    ensures var s := Run(s0, steps);
            && |s.calls| <= 1
            && (s.calls != [] ==> IsIntent(s0, s.calls[0]) && s.row.Some? && s.row.value.status in {Executing, Completed, Failed})
            && (s.row.Some? && s.row.value.status == Denied ==> s.calls == [])
            && (s.row.Some? ==> s0.row.Some? && s.row.value.stored == s0.row.value.stored)
  {
    InvAlways(s0, steps);
    var s := Run(s0, steps);
    if s.calls != [] {
      assert s.calls[0] in s.calls;
    }
  }

  // The moves a row's status may make.
  ghost predicate StatusMove(before: Status, after: Status) {
    || after == before
    || (before == Pending && after in {Denied, Executing})
    || (before == Executing && after in {Completed, Failed})
  }

  /** Status moves only from pending to denied, or from pending through executing to an outcome. */
  lemma StatusMoves(s0: State, steps: seq<Step>, step: Step)
    requires Initial(s0) && s0.row.Some?
    ensures var s := Run(s0, steps);
            s.row.Some? && Apply(s, step).row.Some? && StatusMove(s.row.value.status, Apply(s, step).row.value.status)
  {
    InvAlways(s0, steps);
    var s := Run(s0, steps);
    if step.i < |s.resolvers| {
      assert PhaseOk(s0, s, step.i);
    }
  }

  /** Every resolver that got an answer was told the truth: who was told the action is done made the
      one call there was, and who was told it failed made it too. */
  lemma AnswersAreTrue(s0: State, steps: seq<Step>, i: nat)
    requires Initial(s0) && i < |s0.resolvers|
    ensures var s := Run(s0, steps);
            && (At(s, i) == Answered(WasCompleted) ==> StatusIs(s, Completed) && s.executor == Some(i) && |s.calls| == 1)
            && (At(s, i) == Answered(ActionFailed) ==> StatusIs(s, Failed) && s.executor == Some(i) && |s.calls| == 1)
            && (At(s, i) == Answered(WasDenied) ==> StatusIs(s, Denied) && s.calls == [])
            && (At(s, i) == Answered(AlreadyResolved) ==> s.row.Some? && !StatusIs(s, Pending))
  {
    InvAlways(s0, steps);
    assert PhaseOk(s0, Run(s0, steps), i);
  }

  // The resolver is the owner of the row that an app tool has left at the beginning.
  ghost predicate Entitled(s0: State, i: nat)
    requires i < |s0.resolvers|
  {
    s0.row.Some? && s0.row.value.owner == s0.resolvers[i].user && s0.row.value.appTool
  }

  /** What is done is what was decided, and by whom it may be: only a resolver who approves, and who
      owns the row, ever executes; only one who does not approve is told of a denial; and nothing but
      the row itself decides who is turned away. */
  lemma DecisionsAreKept(s0: State, steps: seq<Step>, i: nat)
    requires Initial(s0) && i < |s0.resolvers|
    ensures var s := Run(s0, steps);
            && (s.executor == Some(i) ==> s0.resolvers[i].approves && Entitled(s0, i))
            && (At(s, i) == Answered(WasDenied) ==> !s0.resolvers[i].approves && Entitled(s0, i))
            && (At(s, i) in {Answered(WasCompleted), Answered(ActionFailed)} ==> s0.resolvers[i].approves && Entitled(s0, i))
            && (At(s, i) == Answered(NotFound) ==> !Entitled(s0, i))
            && (At(s, i) == Answered(AlreadyResolved) ==> Entitled(s0, i))
            && (At(s, i) == Answered(Invalid) ==> Entitled(s0, i) && !s0.row.value.stored.Mutation?)
  {
    InvAlways(s0, steps);
    var s := Run(s0, steps);
    assert PhaseOk(s0, s, i) && SameResolver(s0.resolvers[i], s.resolvers[i]);
  }

  /** A call is always made by an executor, so only after an approval. */
  lemma CallsAreApproved(s0: State, steps: seq<Step>)
    requires Initial(s0) && Run(s0, steps).calls != []
    ensures var executor := Run(s0, steps).executor;
            executor.Some? && executor.value < |s0.resolvers| && s0.resolvers[executor.value].approves
  {
    InvAlways(s0, steps);
    DecisionsAreKept(s0, steps, Run(s0, steps).executor.value);
  }

  // What one resolver's call came to, as far as its phase still tells.
  ghost predicate OutcomeOk(s: State, steps: seq<Step>, i: nat) {
    && (At(s, i) in {Called(true), Answered(WasCompleted)} ==> CallTool(i, Returns) in steps)
    && (At(s, i) in {Called(false), Answered(ActionFailed)} ==> CallTool(i, RaisesHandled) in steps)
  }

  /** Who is told the action is done has a call that returned, and who is told it failed one that did
      not. */
  lemma {:induction false} OutcomesAreTrue(s0: State, steps: seq<Step>, i: nat)
    requires Initial(s0)
    ensures OutcomeOk(Run(s0, steps), steps, i)
  {
    if steps != [] {
      var n := |steps| - 1;
      OutcomesAreTrue(s0, steps[..n], i);
      assert forall step | step in steps[..n] :: step in steps;
      assert steps[n] in steps;
    }
  }

  /** A denial is final: nothing that happens later calls the tool or changes the row. */
  lemma {:induction false} DenialIsFinal(s0: State, steps: seq<Step>, more: seq<Step>)
    requires Initial(s0) && StatusIs(Run(s0, steps), Denied)
    ensures var s := Run(s0, steps + more); s.row == Run(s0, steps).row && s.calls == []
  {
    if more == [] {
      assert steps + more == steps;
      AtMostOneCall(s0, steps);
    } else {
      var n := |more| - 1;
      var all := steps + more[..n];
      assert (steps + more)[..|steps + more| - 1] == all;
      DenialIsFinal(s0, steps, more[..n]);
      InvAlways(s0, all);
      DeniedStays(s0, Run(s0, all), more[n]);
    }
  }

  lemma DeniedStays(s0: State, s: State, step: Step)
    requires Inv(s0, s) && StatusIs(s, Denied)
    ensures Apply(s, step).row == s.row && Apply(s, step).calls == s.calls
  {
    if step.i < |s.resolvers| {
      assert PhaseOk(s0, s, step.i);
    }
  }

  /** From request to call: a row stored for a request can only ever cause that request's call. */
  lemma StoredRequestIsCalled(s0: State, user: int, request: Intent, steps: seq<Step>)
    requires Initial(s0) && s0.row == Some(NewApprovalRow(user, request))
    ensures Run(s0, steps).calls == [] || Run(s0, steps).calls == [request]
  {
    AtMostOneCall(s0, steps);
  }

  // --- One resolver in the program's own form ---

  class AuditRow {
    const owner: int
    const appTool: bool
    const stored: Stored
    var status: Status

    constructor (row: Row)
      ensures Value() == row
    {
      owner, appTool, stored, status := row.owner, row.appTool, row.stored, row.status;
    }

    function Value(): Row
      reads this
    {
      Row(owner, appTool, stored, status)
    }
  }

  // What resolving comes to for a row when nobody else is at it: the calls made, the status left and
  // the answer, absent when an exception passes through.
  ghost predicate Resolved(
    row: Row, user: int, approves: bool, outcome: CallOutcome, status: Status, calls: seq<Intent>, response: Option<Response>)
  {
    var open := row.owner == user && row.appTool && row.status == Pending && row.stored.Mutation?;
    && (calls != [] <==> open && approves)
    && (calls != [] ==> |calls| == 1 && row.stored == Mutation(calls[0]))
    && (!open ==> status == row.status)
    && (open && !approves ==> status == Denied && response == Some(WasDenied))
    && (open && approves && outcome == Returns ==> status == Completed && response == Some(WasCompleted))
    && (open && approves && outcome == RaisesHandled ==> status == Failed && response == Some(ActionFailed))
    && (open && approves && outcome == RaisesOther ==> status == Executing && response == None)
    && (response == Some(NotFound) <==> row.owner != user || !row.appTool)
    && (response == Some(AlreadyResolved) <==> row.owner == user && row.appTool && row.status != Pending)
    && (response == Some(Invalid) <==> row.owner == user && row.appTool && row.status == Pending && !row.stored.Mutation?)
  }

  /** Resolve one approval request; `response` is absent when an exception passes through. */
  method ResolveToolApproval(row: AuditRow, user: int, approves: bool, outcome: CallOutcome)
    returns (response: Option<Response>, called: seq<Intent>)
    modifies row`status
    ensures Resolved(old(row.Value()), user, approves, outcome, row.status, called, response)
  {
    called := [];
    if row.owner != user || !row.appTool {
      return Some(NotFound), called;
    }
    if row.status != Pending {
      return Some(AlreadyResolved), called;
    }
    if !row.stored.Mutation? {
      return Some(Invalid), called;
    }
    if !approves {
      row.status := Denied;
      return Some(WasDenied), called;
    }
    row.status := Executing;
    called := [row.stored.intent];
    match outcome {
      case RaisesOther =>
        return None, called;
      case RaisesHandled =>
        row.status := Failed;
        return Some(ActionFailed), called;
      case Returns =>
        row.status := Completed;
        return Some(WasCompleted), called;
    }
  }

  // A resolver's steps when nothing comes between them.
  function Uninterrupted(s: State, i: nat, outcome: CallOutcome): State {
    Run(s, [Read(i), CommitDecision(i), CallTool(i, outcome), RecordOutcome(i)])
  }

  // The response a resolver got, or none after an exception.
  function ResponseTo(s: State, i: nat): Option<Response> {
    if At(s, i).Answered? then Some(At(s, i).response) else None
  }

  /** Among any number of resolvers, one that is not interrupted does to the row what the method does,
      and touches nobody else. */
  lemma UninterruptedResolves(s: State, i: nat, outcome: CallOutcome)
    requires i < |s.resolvers| && At(s, i) == Idle && s.lock.None? && s.row.Some?
    ensures var t, resolver := Uninterrupted(s, i, outcome), s.resolvers[i];
            && t.row.Some? && t.row.value == s.row.value.(status := t.row.value.status) && t.lock.None?
            && s.calls <= t.calls
            && Resolved(s.row.value, resolver.user, resolver.approves, outcome, t.row.value.status, t.calls[|s.calls|..], ResponseTo(t, i))
            && |t.resolvers| == |s.resolvers| && forall j | 0 <= j < |s.resolvers| && j != i :: t.resolvers[j] == s.resolvers[j]
  {
    AloneSteps(s, i, outcome);
  }

  /** And it does, when the user it was stored for approves it and nobody else has decided. */
  lemma StoredRequestCanBeCalled(s: State, user: int, request: Intent, i: nat, outcome: CallOutcome)
    requires s.row == Some(NewApprovalRow(user, request)) && s.lock.None? && s.calls == []
    requires i < |s.resolvers| && s.resolvers[i] == Resolver(user, true, Idle)
    ensures Uninterrupted(s, i, outcome).calls == [request]
  {
    UninterruptedResolves(s, i, outcome);
  }

  lemma AloneSteps(s: State, i: nat, outcome: CallOutcome)
    ensures Uninterrupted(s, i, outcome)
            == Apply(Apply(Apply(Apply(s, Read(i)), CommitDecision(i)), CallTool(i, outcome)), RecordOutcome(i))
  {
    RunMore(s, [], Read(i));
    RunMore(s, [Read(i)], CommitDecision(i));
    RunMore(s, [Read(i), CommitDecision(i)], CallTool(i, outcome));
    RunMore(s, [Read(i), CommitDecision(i), CallTool(i, outcome)], RecordOutcome(i));
    assert [] + [Read(i)] == [Read(i)];
    assert [Read(i)] + [CommitDecision(i)] == [Read(i), CommitDecision(i)];
    assert [Read(i), CommitDecision(i)] + [CallTool(i, outcome)] == [Read(i), CommitDecision(i), CallTool(i, outcome)];
    assert [Read(i), CommitDecision(i), CallTool(i, outcome)] + [RecordOutcome(i)]
           == [Read(i), CommitDecision(i), CallTool(i, outcome), RecordOutcome(i)];
  }

  lemma RunMore(s: State, steps: seq<Step>, step: Step)
    ensures Run(s, steps + [step]) == Apply(Run(s, steps), step)
  {
    assert (steps + [step])[..|steps|] == steps;
  }
}
