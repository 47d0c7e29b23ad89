/**
 The coder's, reviewer's, verifier's and conductor's legs (cli/handoff.py): the
 auto-walk to verify_pending, the verify gates with their durable attempt
 budget, the two SHA-pinned verdicts, and the recovery commands.
 Git, gh and the verify command are answers handed in by the caller.
 */
module Handoff {
  import opened Basics
  import opened Fsm
  import opened Gate
  import opened StateStore
  import opened History

  datatype Exit =
    | NoActiveTask
    | BadEntryState | ReviewCapBlocked | AttemptCapBlocked
    | DirtyTree | NoPr | WrongPr | VerifyFailed | HeadMismatch   // coder errors
    | PrQueryFailed | HeadUnresolved | NoVerifyCommand | VerifyInfraFailed
    | ChainBroken | ClaimMismatch
    | TransitionRejected | AlreadyRecorded | Done

  // Exactly these rejections burn one verify attempt.
  predicate CoderError(e: Exit) {
    e.DirtyTree? || e.NoPr? || e.WrongPr? || e.VerifyFailed? || e.HeadMismatch?
  }

  datatype PrView = PrView(open: bool, branch: Option<string>, head: Option<Sha>)

  // What the gates of one verify call see, in the order they look.
  datatype Sight = Sight(
    dirty: bool, pr: Option<PrView>, branch: Option<string>,
    command: Option<int>,            // exit code; None when none is configured
    infraCodes: set<int>, worktreeHead: Option<Sha>)

  datatype Config = Config(maxReviewRounds: nat, maxVerifyAttempts: nat)

  // ── the auto-walk ───────────────────────────────────────────────────────

  function CoderCall(key: Key, next: State, cfg: Config): Call {
    Call(key, next, Coder, Caps(cfg.maxReviewRounds, MAX_REBASE_ROUNDS), None)
  }

  function Assign(key: Key): Call {
    Call(key, Assigned, Conductor, DEFAULT_CAPS, None)
  }

  // The edges verify takes on its own before any gate runs.
  function WalkCalls(row: SubtaskRow, key: Key, cfg: Config): seq<Call> {
    var begin, submit := CoderCall(key, InProgress, cfg), CoderCall(key, VerifyPending, cfg);
    match row.state
    case Planned => [Assign(key), begin, submit]
    case Assigned => [begin, submit]
    case InProgress => [submit]
    case NeedsRebase => [begin, submit]
    case ReviewFailed =>
      if row.reviewRound >= cfg.maxReviewRounds then [CoderCall(key, Blocked, cfg)] else [begin, submit]
    case _ => []
  }

  function WalkExit(row: SubtaskRow, cfg: Config): (e: Option<Exit>)
    ensures e != Some(Done)
  {
    match row.state
    case Planned => None
    case Assigned => None
    case InProgress => None
    case VerifyPending => None
    case NeedsRebase => None
    case ReviewFailed => if row.reviewRound >= cfg.maxReviewRounds then Some(ReviewCapBlocked) else None
    case _ => Some(BadEntryState)
  }

  function Walk(db: Db, key: Key, cfg: Config): Db {
    RunAll(db, WalkCalls(Row(db, key), key, cfg))
  }

  // Everything about a subtask that a walk may not touch.
  predicate SameBut(a: Db, b: Db, key: Key) {
    && a.tasks == b.tasks && a.audit == b.audit
    && b.subs.Keys == a.subs.Keys + {key}
    && (forall k :: k in a.subs && k != key ==> b.subs[k] == a.subs[k])
    && Row(b, key) == Row(a, key).(state := Row(b, key).state)
  }

  // The log rows of a run of calls that all apply.
  function Rows(from: State, calls: seq<Call>): seq<LogRow>
    decreases |calls|
  {
    if calls == [] then []
    else
      var c := calls[0];
      [LogRow(c.key, from, c.next, c.role, c.sha)] + Rows(c.next, calls[1..])
  }

  // Where those calls lead.
  function Reached(from: State, calls: seq<Call>): State {
    if calls == [] then from else calls[|calls| - 1].next
  }

  // A run of calls on one subtask that applies edge by edge, gates aside.
  lemma {:induction false} WalkStepsApply(db: Db, key: Key, calls: seq<Call>)
    requires key.task in db.tasks && key in db.subs
    requires PlainRework(db.subs[key], key, calls)
    ensures AllApplied(db, calls)
    ensures var end := RunAll(db, calls);
      && SameBut(db, end, key) && key in end.subs
      && end.subs[key].state == Reached(db.subs[key].state, calls)
      && end.log == db.log + Rows(db.subs[key].state, calls)
    decreases |calls|
  {
    if calls == [] {
      assert db.log + Rows(db.subs[key].state, calls) == db.log;
    } else {
      var c := calls[0];
      var next := Transition(db, c).db;
      assert Reached(db.subs[key].state, calls) == Reached(c.next, calls[1..]);
      hide Transition, IsAllowed, RunAll, AllApplied, SameBut, PlainRework, Rows, Reached;
      PlainHead(db.subs[key], key, calls);
      ReworkStep(db, c);
      SameButMoved(db, key, c.next, next.log);
      WalkStepsApply(next, key, calls[1..]);
      RunAllStep(db, calls);
      SameButChain(db, next, RunAll(db, calls), key);
      RowsStep(db.log, db.subs[key].state, calls);
    }
  }

  lemma RowsStep(log: seq<LogRow>, from: State, calls: seq<Call>)
    requires calls != []
    ensures var c := calls[0];
      log + [LogRow(c.key, from, c.next, c.role, c.sha)] + Rows(c.next, calls[1..]) == log + Rows(from, calls)
  {
  }

  lemma PlainHead(row: SubtaskRow, key: Key, calls: seq<Call>)
    requires calls != [] && PlainRework(row, key, calls)
    ensures var c := calls[0];
      && c.key == key && IsAllowed(row.state, c.role, c.next)
      && (row.state == ReviewFailed && c.next == InProgress ==> row.reviewRound < c.caps.review)
      && c.next !in {MergePending, NeedsRebase, ReviewFailed, Merged}
      && PlainRework(row.(state := c.next), key, calls[1..])
  {
  }

  lemma SameButMoved(db: Db, key: Key, to: State, log: seq<LogRow>)
    requires key in db.subs
    ensures SameBut(db, Db(db.tasks, db.subs[key := db.subs[key].(state := to)], log, db.audit), key)
  {
  }

  lemma SameButChain(a: Db, b: Db, c: Db, key: Key)
    requires SameBut(a, b, key) && SameBut(b, c, key)
    ensures SameBut(a, c, key)
  {
  }

  lemma EnsureIs(db: Db, key: Key)
    requires key.task in db.tasks
    ensures var ready := Ensure(db, key); key in ready.subs && ready.log == db.log && ready.tasks == db.tasks
  {
  }

  lemma SameButEnsured(db: Db, key: Key)
    requires key.task in db.tasks
    ensures SameBut(db, Ensure(db, key), key) && Row(Ensure(db, key), key) == Row(db, key)
  {
  }

  // Calls that meet neither the gate nor a counter, within the review cap.
  predicate PlainRework(row: SubtaskRow, key: Key, calls: seq<Call>)
    decreases |calls|
  {
    calls == [] ||
    var c := calls[0];
    && c.key == key && IsAllowed(row.state, c.role, c.next)
    && (row.state == ReviewFailed && c.next == InProgress ==> row.reviewRound < c.caps.review)
    && c.next !in {MergePending, NeedsRebase, ReviewFailed, Merged}
    && PlainRework(row.(state := c.next), key, calls[1..])
  }

  lemma ReworkStep(db: Db, c: Call)
    requires c.key.task in db.tasks && c.key in db.subs
    requires IsAllowed(db.subs[c.key].state, c.role, c.next)
    requires db.subs[c.key].state == ReviewFailed && c.next == InProgress ==>
               db.subs[c.key].reviewRound < c.caps.review
    requires c.next !in {MergePending, NeedsRebase, ReviewFailed, Merged}
    ensures Transition(db, c) == Result(Applied,
      Db(db.tasks, db.subs[c.key := db.subs[c.key].(state := c.next)],
         db.log + [LogRow(c.key, db.subs[c.key].state, c.next, c.role, c.sha)], db.audit))
  {
    hide Targets;
  }

  lemma WalkIsPlain(row: SubtaskRow, key: Key, cfg: Config)
    ensures PlainRework(row, key, WalkCalls(row, key, cfg))
  {
    var calls := WalkCalls(row, key, cfg);
    if |calls| >= 2 {
      assert PlainRework(row.(state := InProgress), key, [CoderCall(key, VerifyPending, cfg)]);
      if |calls| == 3 {
        assert calls[1..] == [CoderCall(key, InProgress, cfg), CoderCall(key, VerifyPending, cfg)];
        assert calls[1..][1..] == [CoderCall(key, VerifyPending, cfg)];
        assert PlainRework(row.(state := Assigned), key, calls[1..]);
      } else {
        assert calls[1..] == [CoderCall(key, VerifyPending, cfg)];
      }
    }
  }

  // The first call of a run inserts a missing row; that is all it adds.
  lemma EnsureFirst(db: Db, calls: seq<Call>, key: Key)
    requires key.task in db.tasks && calls != [] && calls[0].key == key
    ensures RunAll(db, calls) == RunAll(Ensure(db, key), calls)
    ensures AllApplied(db, calls) <==> AllApplied(Ensure(db, key), calls)
  {
    hide Decide, Write;
    assert Transition(db, calls[0]) == Transition(Ensure(db, key), calls[0]);
  }

  // The auto-walk: it applies, edge by edge; it ends at verify_pending when it
  // lets the gates run and in blocked at the review cap; from any other state it
  // writes nothing; and it never touches a counter, marker or other row.
  lemma WalkEnds(db: Db, key: Key, cfg: Config)
    requires key.task in db.tasks
    ensures AllApplied(db, WalkCalls(Row(db, key), key, cfg))
    ensures var end := Walk(db, key, cfg);
      && (WalkExit(Row(db, key), cfg) == Some(BadEntryState) ==> end == db)
      && (WalkExit(Row(db, key), cfg) != Some(BadEntryState) ==> SameBut(db, end, key))
      && (WalkExit(Row(db, key), cfg).None? ==> key in end.subs && end.subs[key].state == VerifyPending)
      && (WalkExit(Row(db, key), cfg) == Some(ReviewCapBlocked) ==> key in end.subs && end.subs[key].state == Blocked)
      && end.log == db.log + Rows(Row(db, key).state, WalkCalls(Row(db, key), key, cfg))
  {
    var row := Row(db, key);
    var calls := WalkCalls(row, key, cfg);
    WalkShape(row, key, cfg);
    hide WalkCalls, WalkExit;
    if calls != [] {
      hide Transition, RunAll, AllApplied, Rows, PlainRework, SameBut, Ensure;
      var ready := Ensure(db, key);
      SameButEnsured(db, key);
      assert key in ready.subs && ready.log == db.log && key.task in ready.tasks by { EnsureIs(db, key); }
      WalkIsPlain(row, key, cfg);
      EnsureFirst(db, calls, key);
      WalkStepsApply(ready, key, calls);
      SameButChain(db, ready, RunAll(db, calls), key);
    }
  }

  // Which walk it is, told by its exit and its last edge.
  lemma WalkShape(row: SubtaskRow, key: Key, cfg: Config)
    ensures var calls, exit := WalkCalls(row, key, cfg), WalkExit(row, cfg);
      && (calls == [] ==> exit == Some(BadEntryState) || (exit.None? && row.state == VerifyPending))
      && (calls != [] ==>
            && exit != Some(BadEntryState) && calls[0].key == key
            && calls[|calls| - 1].next == if exit == Some(ReviewCapBlocked) then Blocked else VerifyPending)
  {
  }

  // ── the gates ───────────────────────────────────────────────────────────

  // The first gate that fails, or the commit all of them passed at.
  datatype GateResult = Fails(exit: Exit) | Passes(head: Sha)

  function Gates(s: Sight): (g: GateResult)
    ensures g.Fails? ==> g.exit != Done
  {
    if s.dirty then Fails(DirtyTree)
    else if s.pr.None? then Fails(PrQueryFailed)
    else if !s.pr.value.open then Fails(NoPr)
    else if s.branch.None? then Fails(HeadUnresolved)
    else if s.pr.value.branch != s.branch then Fails(WrongPr)
    else if s.command.None? then Fails(NoVerifyCommand)
    else if s.command.value != 0 then
      (if s.command.value in s.infraCodes then Fails(VerifyInfraFailed) else Fails(VerifyFailed))
    else if !Pinned(s.pr.value.head) then Fails(HeadUnresolved)
    else if !Pinned(s.worktreeHead) then Fails(HeadUnresolved)
    else if s.worktreeHead != s.pr.value.head then Fails(HeadMismatch)
    else Passes(s.worktreeHead.value)
  }

  // Passing pins the one commit that is clean in the worktree, verified by the
  // configured command, and the head of this branch's own open PR.
  lemma PassingPinsThePrHead(s: Sight, head: Sha)
    ensures Gates(s) == Passes(head) <==>
      && !s.dirty && s.pr.Some? && s.pr.value.open
      && s.branch.Some? && s.pr.value.branch == s.branch
      && s.command == Some(0)
      && head != "" && s.pr.value.head == Some(head) && s.worktreeHead == Some(head)
  {
  }

  datatype LegResult = LegResult(db: Db, exit: Exit)

  function Submit(key: Key, head: Sha): Call {
    Call(key, ReviewPending, Coder, DEFAULT_CAPS, Some(head))
  }

  function ExitOf(outcome: Outcome): Exit {
    match outcome
    case Applied => Done
    case NoOp => AlreadyRecorded
    case _ => TransitionRejected
  }

  // verify from verify_pending on: the attempt budget, the gates, the record.
  // Another actor may have moved the subtask meanwhile: then nothing is bound.
  function GateLeg(db: Db, key: Key, pr: int, cfg: Config, s: Sight): LegResult {
    if Row(db, key).verifyAttempts >= cfg.maxVerifyAttempts then
      var r := Transition(db, CoderCall(key, Blocked, cfg));
      LegResult(r.db, if r.outcome == Applied then AttemptCapBlocked else TransitionRejected)
    else
      match Gates(s)
      case Fails(exit) => LegResult(if CoderError(exit) then BumpAttempts(db, key) else db, exit)
      case Passes(head) =>
        var r := Transition(db, Submit(key, head));
        LegResult(if r.outcome == Applied then SetPr(r.db, key, pr) else r.db, ExitOf(r.outcome))
  }

  // cb-phase verify, after the task is resolved.
  function VerifyLeg(db: Db, key: Key, pr: int, cfg: Config, s: Sight): LegResult {
    if key.task !in db.tasks then LegResult(db, NoActiveTask)
    else
      var walked := Walk(db, key, cfg);
      var walkExit := WalkExit(Row(db, key), cfg);
      if walkExit.Some? then LegResult(walked, walkExit.value) else GateLeg(walked, key, pr, cfg, s)
  }

  // ── the commands ────────────────────────────────────────────────────────

  // Take `calls` one after the other; each is known to apply.
  method TakeEdges(store: Store, calls: seq<Call>)
    requires AllApplied(store.Snapshot(), calls)
    modifies store
    ensures store.Snapshot() == RunAll(old(store.Snapshot()), calls)
  {
    var i := 0;
    while i < |calls|
      invariant 0 <= i <= |calls|
      invariant AllApplied(store.Snapshot(), calls[i..])
      invariant RunAll(store.Snapshot(), calls[i..]) == RunAll(old(store.Snapshot()), calls)
    {
      assert calls[i..][1..] == calls[i + 1..];
      hide Transition;
      RunAllStep(store.Snapshot(), calls[i..]);
      var outcome := store.Transition(calls[i]);
      i := i + 1;
    }
    assert calls[i..] == [];
  }

  // _walk_to_verify_pending
  method WalkToVerifyPending(store: Store, key: Key, cfg: Config) returns (code: Option<Exit>)
    requires key.task in store.tasks
    modifies store
    ensures store.Snapshot() == Walk(old(store.Snapshot()), key, cfg)
    ensures code == WalkExit(Row(old(store.Snapshot()), key), cfg)
  {
    WalkEnds(store.Snapshot(), key, cfg);
    var sub := store.GetSubtask(key);
    var row := if sub.Some? then sub.value else FRESH_ROW;
    var begin, submit := CoderCall(key, InProgress, cfg), CoderCall(key, VerifyPending, cfg);
    hide Transition, RunAll, AllApplied;
    match row.state {
      case Planned => TakeEdges(store, [Assign(key), begin, submit]);
      case Assigned => TakeEdges(store, [begin, submit]);
      case VerifyPending => TakeEdges(store, []);
      case InProgress => TakeEdges(store, [submit]);
      case NeedsRebase => TakeEdges(store, [begin, submit]);
      case ReviewFailed =>
        if row.reviewRound >= cfg.maxReviewRounds {
          TakeEdges(store, [CoderCall(key, Blocked, cfg)]);
          return Some(ReviewCapBlocked);
        }
        TakeEdges(store, [begin, submit]);
      case _ =>
        TakeEdges(store, []);
        return Some(BadEntryState);
    }
    return None;
  }

  // _reject: the only place a rejection is counted.
  method Reject(store: Store, key: Key, exit: Exit) returns (code: Exit)
    modifies store
    ensures store.Snapshot() == BumpAttempts(old(store.Snapshot()), key) && code == exit
  {
    store.IncrementVerifyAttempts(key);
    return exit;
  }

  method CmdVerify(store: Store, key: Key, pr: int, cfg: Config, s: Sight) returns (code: Exit)
    modifies store
    ensures LegResult(store.Snapshot(), code) == VerifyLeg(old(store.Snapshot()), key, pr, cfg, s)
  {
    if key.task !in store.tasks {
      return NoActiveTask;
    }
    hide Transition, Walk, GateLeg;
    var walkResult := WalkToVerifyPending(store, key, cfg);
    if walkResult.Some? {
      return walkResult.value;
    }
    code := RunGates(store, key, pr, cfg, s);
  }

  // The rest of _cmd_verify.
  method RunGates(store: Store, key: Key, pr: int, cfg: Config, s: Sight) returns (code: Exit)
    modifies store
    ensures LegResult(store.Snapshot(), code) == GateLeg(old(store.Snapshot()), key, pr, cfg, s)
  {
    hide Transition;
    var subtask := store.GetSubtask(key);
    var attempts := if subtask.Some? then subtask.value.verifyAttempts else 0;
    if attempts >= cfg.maxVerifyAttempts {
      var outcome := store.Transition(CoderCall(key, Blocked, cfg));
      return if outcome == Applied then AttemptCapBlocked else TransitionRejected;
    }
    if s.dirty {
      code := Reject(store, key, DirtyTree);
      return;
    }
    if s.pr.None? {
      return PrQueryFailed;
    }
    if !s.pr.value.open {
      code := Reject(store, key, NoPr);
      return;
    }
    if s.branch.None? {
      return HeadUnresolved;
    }
    if s.pr.value.branch != s.branch {
      code := Reject(store, key, WrongPr);
      return;
    }
    if s.command.None? {
      return NoVerifyCommand;
    }
    if s.command.value != 0 {
      if s.command.value in s.infraCodes {
        return VerifyInfraFailed;
      }
      code := Reject(store, key, VerifyFailed);
      return;
    }
    if !Pinned(s.pr.value.head) || !Pinned(s.worktreeHead) {
      return HeadUnresolved;
    }
    if s.worktreeHead != s.pr.value.head {
      code := Reject(store, key, HeadMismatch);
      return;
    }
    var outcome := store.Transition(Submit(key, s.worktreeHead.value));
    if outcome == Applied {
      store.SetPrNumber(key, pr);
    }
    return ExitOf(outcome);
  }

  // A verdict leg: resolve the PR head first, then one pinned transition.
  function Verdict(key: Key, next: State, role: Role, head: Option<Sha>): Call {
    Call(key, next, role, DEFAULT_CAPS, head)
  }

  function ReviewLeg(db: Db, key: Key, head: Option<Sha>, approve: bool): LegResult {
    if key.task !in db.tasks then LegResult(db, NoActiveTask)
    else if !Pinned(head) then LegResult(db, HeadUnresolved)
    else
      var r := Transition(db, Verdict(key, if approve then ReviewPassed else ReviewFailed, Reviewer, head));
      LegResult(r.db, ExitOf(r.outcome))
  }

  method CmdReview(store: Store, key: Key, head: Option<Sha>, approve: bool) returns (code: Exit)
    modifies store
    ensures LegResult(store.Snapshot(), code) == ReviewLeg(old(store.Snapshot()), key, head, approve)
  {
    hide Transition;
    if key.task !in store.tasks {
      return NoActiveTask;
    }
    if !Pinned(head) {
      return HeadUnresolved;
    }
    var next := if approve then ReviewPassed else ReviewFailed;
    var outcome := store.Transition(Verdict(key, next, Reviewer, head));
    return ExitOf(outcome);
  }

  // A chat claim: that a grant exists, or the name of an FSM state (None when
  // the words name no state).
  datatype Claim = Approved | Names(state: Option<State>)

  // _claim_vs_store_finding: does the claim diverge from the store?
  predicate Diverges(row: Option<SubtaskRow>, claim: Option<Claim>) {
    claim.Some? &&
    match claim.value
    case Approved => row.None? || row.value.approved.None?
    case Names(state) => state != Some(if row.Some? then row.value.state else Planned)
  }

  function AcceptLeg(db: Db, key: Key, head: Option<Sha>, accept: bool, chainOk: bool, claim: Option<Claim>)
    : LegResult
  {
    if key.task !in db.tasks then LegResult(db, NoActiveTask)
    else if !Pinned(head) then LegResult(db, HeadUnresolved)
    else if accept && !chainOk then LegResult(db, ChainBroken)
    else if accept && Diverges(if key in db.subs then Some(db.subs[key]) else None, claim)
      then LegResult(db, ClaimMismatch)
    else
      var r := Transition(db, Verdict(key, if accept then AcceptancePassed else ReviewFailed, Verifier, head));
      LegResult(r.db, ExitOf(r.outcome))
  }

  method CmdVerifyAcceptance(
      store: Store, key: Key, head: Option<Sha>, accept: bool, chainOk: bool, claim: Option<Claim>)
    returns (code: Exit)
    modifies store
    ensures LegResult(store.Snapshot(), code) == AcceptLeg(old(store.Snapshot()), key, head, accept, chainOk, claim)
  {
    hide Transition;
    if key.task !in store.tasks {
      return NoActiveTask;
    }
    if !Pinned(head) {
      return HeadUnresolved;
    }
    if accept {
      if !chainOk {
        return ChainBroken;
      }
      var subtask := store.GetSubtask(key);
      if Diverges(subtask, claim) {
        return ClaimMismatch;
      }
    }
    var next := if accept then AcceptancePassed else ReviewFailed;
    var outcome := store.Transition(Verdict(key, next, Verifier, head));
    return ExitOf(outcome);
  }

  // An acceptance pass is recorded only over an intact ledger, an agreeing
  // claim, a resolved head, and a review that passed.
  lemma AcceptanceRecordedIff(db: Db, key: Key, head: Option<Sha>, chainOk: bool, claim: Option<Claim>)
    ensures AcceptLeg(db, key, head, true, chainOk, claim).exit == Done <==>
      && key in db.subs && key.task in db.tasks && db.subs[key].state == ReviewPassed
      && Pinned(head) && chainOk
      && (claim == Some(Approved) ==> db.subs[key].approved.Some?)
      && (claim.Some? && claim.value.Names? ==> claim.value.state == Some(ReviewPassed))
  {
  }

  // A review verdict is recorded exactly on a review_pending subtask with a
  // resolved head: it is pinned there, and only a rejection costs a round.
  lemma ReviewRecordedIff(db: Db, key: Key, head: Option<Sha>, approve: bool)
    ensures var r := ReviewLeg(db, key, head, approve);
      var next := if approve then ReviewPassed else ReviewFailed;
      && (r.exit == Done <==>
            key.task in db.tasks && key in db.subs && db.subs[key].state == ReviewPending && Pinned(head))
      && (r.exit == Done ==>
            && r.db.log == db.log + [LogRow(key, ReviewPending, next, Reviewer, head)]
            && r.db.subs[key] == db.subs[key].(state := next,
                 reviewRound := db.subs[key].reviewRound + if approve then 0 else 1))
      && (r.exit == AlreadyRecorded ==> HasRow(db.log, key, next, head))
  {
  }

  // An acceptance rejection is open to any review_passed subtask - no ledger or
  // claim is consulted - and costs a review round.
  lemma AcceptanceRejectedIff(db: Db, key: Key, head: Option<Sha>, chainOk: bool, claim: Option<Claim>)
    ensures var r := AcceptLeg(db, key, head, false, chainOk, claim);
      && (r.exit == Done <==>
            key.task in db.tasks && key in db.subs && db.subs[key].state == ReviewPassed && Pinned(head))
      && (r.exit == Done ==>
            && r.db.log == db.log + [LogRow(key, ReviewPassed, ReviewFailed, Verifier, head)]
            && r.db.subs[key] ==
                 db.subs[key].(state := ReviewFailed, reviewRound := db.subs[key].reviewRound + 1))
  {
  }

  // Abandon and resume are single conductor transitions; resume keeps every
  // counter and marker, so it is no reset of any cap.
  function RecoveryLeg(db: Db, key: Key, next: State): LegResult {
    if key.task !in db.tasks then LegResult(db, NoActiveTask)
    else
      var r := Transition(db, Call(key, next, Conductor, DEFAULT_CAPS, None));
      LegResult(r.db, if r.outcome == Applied then Done else TransitionRejected)
  }

  method CmdAbandon(store: Store, key: Key) returns (code: Exit)
    modifies store
    ensures LegResult(store.Snapshot(), code) == RecoveryLeg(old(store.Snapshot()), key, Abandoned)
  {
    hide Transition;
    if key.task !in store.tasks {
      return NoActiveTask;
    }
    var outcome := store.Transition(Call(key, Abandoned, Conductor, DEFAULT_CAPS, None));
    return if outcome == Applied then Done else TransitionRejected;
  }

  method CmdResume(store: Store, key: Key) returns (code: Exit)
    modifies store
    ensures LegResult(store.Snapshot(), code) == RecoveryLeg(old(store.Snapshot()), key, InProgress)
  {
    hide Transition;
    if key.task !in store.tasks {
      return NoActiveTask;
    }
    var outcome := store.Transition(Call(key, InProgress, Conductor, DEFAULT_CAPS, None));
    return if outcome == Applied then Done else TransitionRejected;
  }

  lemma RecoveryIsExact(db: Db, key: Key)
    requires key.task in db.tasks
    ensures RecoveryLeg(db, key, InProgress).exit == Done <==> Row(db, key).state == Blocked
    ensures RecoveryLeg(db, key, Abandoned).exit == Done <==> !Terminal(Row(db, key).state)
    ensures RecoveryLeg(db, key, InProgress).exit == Done ==>
              Row(RecoveryLeg(db, key, InProgress).db, key) == Row(db, key).(state := InProgress)
  {
  }

  // cb-phase start: seed planned or assigned up to in_progress, else a no-op.
  method CmdStart(store: Store, key: Key) returns (code: Exit)
    modifies store
    ensures key.task !in old(store.tasks) ==> code == NoActiveTask && store.Snapshot() == old(store.Snapshot())
    ensures key.task in old(store.tasks) ==>
      && code == Done
      && var row := Row(old(store.Snapshot()), key);
         if row.state == Planned || row.state == Assigned
         then SameBut(old(store.Snapshot()), store.Snapshot(), key)
              && Row(store.Snapshot(), key) == row.(state := InProgress)
         else store.Snapshot() == old(store.Snapshot())
  {
    if key.task !in store.tasks {
      return NoActiveTask;
    }
    var pre := store.GetSubtask(key);
    var row := if pre.Some? then pre.value else FRESH_ROW;
    if row.state != Planned && row.state != Assigned {
      return Done;
    }
    hide RunAll, AllApplied, SameBut, StartCalls;
    StartEnds(store.Snapshot(), key);
    TakeEdges(store, StartCalls(row, key));
    return Done;
  }

  function StartCalls(row: SubtaskRow, key: Key): seq<Call> {
    var begin := CoderCall(key, InProgress, Config(MAX_REVIEW_ROUNDS, 0));
    if row.state == Planned then [Assign(key), begin] else [begin]
  }

  lemma {:induction false} StartEnds(db: Db, key: Key)
    requires key.task in db.tasks && (Row(db, key).state == Planned || Row(db, key).state == Assigned)
    ensures var calls := StartCalls(Row(db, key), key);
      && AllApplied(db, calls) && SameBut(db, RunAll(db, calls), key)
      && Row(RunAll(db, calls), key) == Row(db, key).(state := InProgress)
  {
    var calls, ready := StartCalls(Row(db, key), key), Ensure(db, key);
    StartIsPlain(Row(db, key), key);
    SameButEnsured(db, key);
    EnsureIs(db, key);
    hide RunAll, AllApplied, Transition, PlainRework, Rows, Ensure;
    EnsureFirst(db, calls, key);
    WalkStepsApply(ready, key, calls);
    SameButChain(db, ready, RunAll(db, calls), key);
  }

  lemma StartIsPlain(row: SubtaskRow, key: Key)
    requires row.state == Planned || row.state == Assigned
    ensures PlainRework(row, key, StartCalls(row, key))
  {
    var begin := CoderCall(key, InProgress, Config(MAX_REVIEW_ROUNDS, 0));
    assert PlainRework(row.(state := Assigned), key, [begin]);
    assert [Assign(key), begin][1..] == [begin];
  }

  // ── the attempt budget over whole runs ──────────────────────────────────

  // Sequential verify calls, with anything else the program does in between.
  datatype RunOp =
    | Verify(key: Key, pr: int, sight: Sight)
    | Other(op: Op)

  predicate NoBump(op: RunOp) {
    op.Other? ==> !op.op.DoBump?
  }

  function ApplyRunOp(db: Db, op: RunOp, cfg: Config): LegResult {
    match op
    case Verify(key, pr, s) => VerifyLeg(db, key, pr, cfg, s)
    case Other(o) => LegResult(ApplyOp(db, o), Done)
  }

  function RunVerifies(db: Db, ops: seq<RunOp>, cfg: Config): Db {
    if ops == [] then db
    else ApplyRunOp(RunVerifies(db, ops[..|ops| - 1], cfg), ops[|ops| - 1], cfg).db
  }

  // Verify calls on `key` in the run that were rejected as coder errors.
  function CoderErrors(db: Db, ops: seq<RunOp>, cfg: Config, key: Key): nat {
    if ops == [] then 0
    else
      var front, last := ops[..|ops| - 1], ops[|ops| - 1];
      CoderErrors(db, front, cfg, key)
      + (if last.Verify? && last.key == key
            && CoderError(ApplyRunOp(RunVerifies(db, front, cfg), last, cfg).exit) then 1 else 0)
  }

  lemma OtherKeepsAttempts(db: Db, op: Op, key: Key)
    requires !op.DoBump?
    ensures Row(ApplyOp(db, op), key).verifyAttempts == Row(db, key).verifyAttempts
  {
    if op.DoTransition? {
      TransitionIsLocal(db, op.call);
      TransitionKeepsAttempts(db, op.call, key);
    }
  }

  lemma TransitionKeepsAttempts(db: Db, c: Call, key: Key)
    ensures Row(Transition(db, c).db, key).verifyAttempts == Row(db, key).verifyAttempts
  {
    hide Decide;
  }

  lemma WalkKeepsAttempts(db: Db, vkey: Key, cfg: Config, key: Key)
    requires vkey.task in db.tasks
    ensures Row(Walk(db, vkey, cfg), key).verifyAttempts == Row(db, key).verifyAttempts
    ensures WalkExit(Row(db, vkey), cfg).None? ==> vkey in Walk(db, vkey, cfg).subs
  {
    WalkEnds(db, vkey, cfg);
    hide Walk, WalkExit;
    var walked := Walk(db, vkey, cfg);
    if walked != db && key != vkey {
      assert key in walked.subs <==> key in db.subs;
    }
  }

  lemma {:induction false} VerifyCountsAttempts(db: Db, vkey: Key, pr: int, cfg: Config, s: Sight, key: Key)
    ensures var r := VerifyLeg(db, vkey, pr, cfg, s);
      && Row(r.db, key).verifyAttempts ==
           Row(db, key).verifyAttempts + (if vkey == key && CoderError(r.exit) then 1 else 0)
      && (vkey == key && CoderError(r.exit) ==> Row(db, key).verifyAttempts < cfg.maxVerifyAttempts)
  {
    if vkey.task in db.tasks {
      WalkKeepsAttempts(db, vkey, cfg, key);
      hide Walk, GateLeg, WalkExit;
      if WalkExit(Row(db, vkey), cfg).None? {
        WalkKeepsAttempts(db, vkey, cfg, vkey);
        GatesCountAttempts(Walk(db, vkey, cfg), vkey, pr, cfg, s, key);
      } else {
        WalkExitIsNoError(Row(db, vkey), cfg);
      }
    }
  }

  lemma WalkExitIsNoError(row: SubtaskRow, cfg: Config)
    ensures WalkExit(row, cfg).Some? ==> !CoderError(WalkExit(row, cfg).value)
  {
  }

  lemma GatesCountAttempts(db: Db, vkey: Key, pr: int, cfg: Config, s: Sight, key: Key)
    requires vkey in db.subs
    ensures var r := GateLeg(db, vkey, pr, cfg, s);
      && Row(r.db, key).verifyAttempts ==
           Row(db, key).verifyAttempts + (if vkey == key && CoderError(r.exit) then 1 else 0)
      && (vkey == key && CoderError(r.exit) ==> Row(db, key).verifyAttempts < cfg.maxVerifyAttempts)
  {
    TransitionKeepsAttempts(db, CoderCall(vkey, Blocked, cfg), key);
    if Gates(s).Passes? {
      TransitionKeepsAttempts(db, Submit(vkey, Gates(s).head), key);
    }
    hide Transition, Gates;
  }

  // Over any run the durable count grows by exactly the coder-error rejections
  // and, once within the cap, never leaves it - resumes included.
  lemma {:induction false} AttemptsCountCoderErrors(db: Db, ops: seq<RunOp>, cfg: Config, key: Key)
    requires forall op <- ops :: NoBump(op)
    ensures Row(RunVerifies(db, ops, cfg), key).verifyAttempts
         == Row(db, key).verifyAttempts + CoderErrors(db, ops, cfg, key)
    ensures Row(db, key).verifyAttempts <= cfg.maxVerifyAttempts ==>
              Row(RunVerifies(db, ops, cfg), key).verifyAttempts <= cfg.maxVerifyAttempts
  {
    hide VerifyLeg, ApplyOp;
    if ops != [] {
      var front, last := ops[..|ops| - 1], ops[|ops| - 1];
      AttemptsCountCoderErrors(db, front, cfg, key);
      var mid := RunVerifies(db, front, cfg);
      assert NoBump(last);
      match last
      case Verify(vkey, pr, s) => VerifyCountsAttempts(mid, vkey, pr, cfg, s, key);
      case Other(op) => OtherKeepsAttempts(mid, op, key);
    }
  }

  // Where the gates run: at verify_pending, with nothing else of the row changed.
  lemma WalkedIn(db: Db, key: Key, cfg: Config)
    requires key.task in db.tasks && WalkExit(Row(db, key), cfg).None?
    ensures var walked := Walk(db, key, cfg);
      && walked.tasks == db.tasks && key in walked.subs
      && walked.subs[key] == Row(db, key).(state := VerifyPending)
      && walked.log == db.log + Rows(Row(db, key).state, WalkCalls(Row(db, key), key, cfg))
  {
    WalkEnds(db, key, cfg);
    hide Walk, WalkExit, Rows, WalkCalls;
  }

  // A verify call succeeds exactly when the walk lets it run, an attempt is
  // left and every gate passes; then the subtask is bound to the PR and in
  // review, and the commit the gates passed at is the one on the log.
  lemma {:induction false} VerifyRecordedIff(db: Db, key: Key, pr: int, cfg: Config, s: Sight)
    ensures var r := VerifyLeg(db, key, pr, cfg, s);
      && (r.exit == Done <==>
            && key.task in db.tasks && WalkExit(Row(db, key), cfg).None?
            && Row(db, key).verifyAttempts < cfg.maxVerifyAttempts && Gates(s).Passes?)
      && (r.exit == Done ==>
            && Row(r.db, key) == Row(db, key).(state := ReviewPending, pr := Some(pr))
            && r.db.log == db.log + Rows(Row(db, key).state, WalkCalls(Row(db, key), key, cfg))
                         + [LogRow(key, VerifyPending, ReviewPending, Coder, Some(Gates(s).head))])
  {
    hide Walk, WalkExit, Rows, WalkCalls, Gates, Transition;
    if key.task in db.tasks && WalkExit(Row(db, key), cfg).None? {
      WalkedIn(db, key, cfg);
      if Gates(s).Passes? {
        assert IsAllowed(VerifyPending, Coder, ReviewPending);
        ReworkStep(Walk(db, key, cfg), Submit(key, Gates(s).head));
      }
    }
  }

  // At the budget a verify call runs no gate: it only escalates.
  lemma {:induction false} SpentBudgetOnlyBlocks(db: Db, key: Key, pr: int, cfg: Config, s: Sight)
    requires key.task in db.tasks && WalkExit(Row(db, key), cfg).None?
    requires Row(db, key).verifyAttempts >= cfg.maxVerifyAttempts
    ensures var r := VerifyLeg(db, key, pr, cfg, s);
      r.exit == AttemptCapBlocked && Row(r.db, key) == Row(db, key).(state := Blocked)
  {
    hide Walk, WalkExit, Gates, Transition;
    WalkedIn(db, key, cfg);
    assert IsAllowed(VerifyPending, Coder, Blocked);
    ReworkStep(Walk(db, key, cfg), CoderCall(key, Blocked, cfg));
  }

  // ── which failure is which ──────────────────────────────────────────────

  // The gates a call has passed before it looks at the next thing.
  predicate CleanWithPr(s: Sight) {
    !s.dirty && s.pr.Some? && s.pr.value.open
  }

  predicate OwnPr(s: Sight) {
    CleanWithPr(s) && s.branch.Some? && s.pr.value.branch == s.branch
  }

  predicate Tested(s: Sight) {
    OwnPr(s) && s.command == Some(0)
  }

  // Each failing exit says which gate was the first to fail.
  lemma FirstFailingGate(s: Sight)
    ensures Gates(s) == Fails(DirtyTree) <==> s.dirty
    ensures Gates(s) == Fails(PrQueryFailed) <==> !s.dirty && s.pr.None?
    ensures Gates(s) == Fails(NoPr) <==> !s.dirty && s.pr.Some? && !s.pr.value.open
    ensures Gates(s) == Fails(WrongPr) <==> CleanWithPr(s) && s.branch.Some? && s.pr.value.branch != s.branch
    ensures Gates(s) == Fails(NoVerifyCommand) <==> OwnPr(s) && s.command.None?
    ensures Gates(s) == Fails(VerifyInfraFailed) <==>
      OwnPr(s) && s.command.Some? && s.command != Some(0) && s.command.value in s.infraCodes
    ensures Gates(s) == Fails(VerifyFailed) <==>
      OwnPr(s) && s.command.Some? && s.command != Some(0) && s.command.value !in s.infraCodes
    ensures Gates(s) == Fails(HeadUnresolved) <==>
      || (CleanWithPr(s) && s.branch.None?)
      || (Tested(s) && (!Pinned(s.pr.value.head) || !Pinned(s.worktreeHead)))
    ensures Gates(s) == Fails(HeadMismatch) <==>
      Tested(s) && Pinned(s.pr.value.head) && Pinned(s.worktreeHead) && s.worktreeHead != s.pr.value.head
  {
  }

  // The walk lets the call run, and an attempt is left.
  predicate RunsGates(db: Db, key: Key, cfg: Config) {
    && key.task in db.tasks && WalkExit(Row(db, key), cfg).None?
    && Row(db, key).verifyAttempts < cfg.maxVerifyAttempts
  }

  // A verify call that runs its gates exits as the first of them that fails.
  lemma {:induction false} VerifyExitIff(db: Db, key: Key, pr: int, cfg: Config, s: Sight, exit: Exit)
    requires exit in {DirtyTree, NoPr, WrongPr, VerifyFailed, HeadMismatch,
                      PrQueryFailed, HeadUnresolved, NoVerifyCommand, VerifyInfraFailed}
    ensures VerifyLeg(db, key, pr, cfg, s).exit == exit <==> RunsGates(db, key, cfg) && Gates(s) == Fails(exit)
  {
    hide Walk, Gates, Transition;
    if key.task in db.tasks && WalkExit(Row(db, key), cfg).None? {
      WalkedIn(db, key, cfg);
    }
  }

  // What a coder can mend: a dirty tree, no open PR, another branch's PR, a test
  // command that ran and failed, a worktree that is not at the PR's head. Each
  // counts only when nothing before it failed.
  predicate CodersFault(s: Sight) {
    || s.dirty
    || (s.pr.Some? && !s.pr.value.open)
    || (CleanWithPr(s) && s.branch.Some? && s.pr.value.branch != s.branch)
    || (OwnPr(s) && s.command.Some? && s.command != Some(0) && s.command.value !in s.infraCodes)
    || (Tested(s) && Pinned(s.pr.value.head) && Pinned(s.worktreeHead) && s.worktreeHead != s.pr.value.head)
  }

  // A verify call burns an attempt exactly when it runs its gates and what they
  // find is the coder's fault: what infrastructure broke costs nobody an attempt.
  lemma {:induction false} AttemptBurnsIff(db: Db, key: Key, pr: int, cfg: Config, s: Sight)
    ensures Row(VerifyLeg(db, key, pr, cfg, s).db, key).verifyAttempts ==
      Row(db, key).verifyAttempts + if RunsGates(db, key, cfg) && CodersFault(s) then 1 else 0
  {
    VerifyCountsAttempts(db, key, pr, cfg, s, key);
    FirstFailingGate(s);
    forall exit | exit in {DirtyTree, NoPr, WrongPr, VerifyFailed, HeadMismatch}
      ensures VerifyLeg(db, key, pr, cfg, s).exit == exit <==> RunsGates(db, key, cfg) && Gates(s) == Fails(exit)
    {
      VerifyExitIff(db, key, pr, cfg, s, exit);
    }
    hide VerifyLeg, Gates, RunsGates;
    assert CoderError(VerifyLeg(db, key, pr, cfg, s).exit) <==>
      VerifyLeg(db, key, pr, cfg, s).exit in {DirtyTree, NoPr, WrongPr, VerifyFailed, HeadMismatch};
  }

  // ── where the walk may begin ────────────────────────────────────────────

  // The edges the leg may take on its own: the coder's, under the configured
  // review cap, and the one that assigns a planned subtask.
  predicate OwnEdges(calls: seq<Call>, key: Key, cfg: Config) {
    forall c <- calls :: c == Assign(key) || (c.role == Coder && c.caps.review == cfg.maxReviewRounds)
  }

  predicate LeadsToVerify(row: SubtaskRow, key: Key, cfg: Config, calls: seq<Call>) {
    OwnEdges(calls, key, cfg) && PlainRework(row, key, calls) && Reached(row.state, calls) == VerifyPending
  }

  // From these states such edges lead nowhere, or just to blocked.
  predicate ClosedToCoder(row: SubtaskRow, cfg: Config) {
    || row.state in {ReviewPending, ReviewPassed, AcceptancePassed, MergePending, Merged, Blocked, Abandoned}
    || (row.state == ReviewFailed && row.reviewRound >= cfg.maxReviewRounds)
  }

  lemma {:induction false} NoWayFrom(row: SubtaskRow, key: Key, cfg: Config, calls: seq<Call>)
    requires ClosedToCoder(row, cfg) && OwnEdges(calls, key, cfg) && PlainRework(row, key, calls)
    ensures Reached(row.state, calls) in {row.state, Blocked}
    decreases |calls|
  {
    if calls != [] {
      assert calls[0] in calls && forall c <- calls[1..] :: c in calls;
      NoWayFrom(row.(state := calls[0].next), key, cfg, calls[1..]);
    }
  }

  // The walk lets the gates run exactly when its own edges can take the subtask
  // to verify_pending at all; at the review cap it blocks instead, and from
  // everywhere else it refuses.
  lemma WalkRunsIff(row: SubtaskRow, key: Key, cfg: Config)
    ensures WalkExit(row, cfg).None? <==> exists calls :: LeadsToVerify(row, key, cfg, calls)
    ensures WalkExit(row, cfg) == Some(ReviewCapBlocked) <==>
      row.state == ReviewFailed && row.reviewRound >= cfg.maxReviewRounds
  {
    if WalkExit(row, cfg).None? {
      WalkIsPlain(row, key, cfg);
      assert LeadsToVerify(row, key, cfg, WalkCalls(row, key, cfg));
    } else if calls :| LeadsToVerify(row, key, cfg, calls) {
      NoWayFrom(row, key, cfg, calls);
    }
  }

  // The calls that never get to the gates: an unknown task and a subtask past
  // the coder's reach write nothing, one at the review cap is blocked.
  lemma VerifyStops(db: Db, key: Key, pr: int, cfg: Config, s: Sight)
    ensures var r, row := VerifyLeg(db, key, pr, cfg, s), Row(db, key);
      var known, capped := key.task in db.tasks, row.state == ReviewFailed && row.reviewRound >= cfg.maxReviewRounds;
      var closed :=
        row.state in {ReviewPending, ReviewPassed, AcceptancePassed, MergePending, Merged, Blocked, Abandoned};
      && (r.exit == NoActiveTask <==> !known) && (r.exit == BadEntryState <==> known && closed)
      && (!known || closed ==> r.db == db)
      && (r.exit == ReviewCapBlocked <==> known && capped)
      && (known && capped ==>
            && Row(r.db, key) == row.(state := Blocked)
            && r.db.log == db.log + [LogRow(key, ReviewFailed, Blocked, Coder, None)])
  {
    hide Transition, Walk, Gates;
    if key.task in db.tasks {
      WalkEnds(db, key, cfg);
      GatesStopOtherwise(Walk(db, key, cfg), key, pr, cfg, s);
      hide GateLeg;
    }
  }

  lemma GatesStopOtherwise(db: Db, key: Key, pr: int, cfg: Config, s: Sight)
    ensures GateLeg(db, key, pr, cfg, s).exit !in {NoActiveTask, BadEntryState, ReviewCapBlocked}
  {
    hide Transition;
  }

  // ── every exit of the other legs ────────────────────────────────────────

  // The verdict stands on the log at this head already, and the subtask is
  // neither where it is given nor in rework.
  predicate GivenBefore(db: Db, key: Key, from: State, to: State, head: Option<Sha>) {
    && key in db.subs && db.subs[key].state !in {from, NeedsRebase, ReviewFailed, Blocked}
    && HasRow(db.log, key, to, head)
  }

  lemma VerdictOutcome(db: Db, key: Key, next: State, role: Role, from: State, head: Option<Sha>)
    requires key.task in db.tasks && Pinned(head)
    requires (next, role, from) in {(ReviewPassed, Reviewer, ReviewPending), (ReviewFailed, Reviewer, ReviewPending),
                                    (AcceptancePassed, Verifier, ReviewPassed), (ReviewFailed, Verifier, ReviewPassed)}
    requires LogOfUnseen(db, key)
    ensures var outcome := Transition(db, Verdict(key, next, role, head)).outcome;
      && (outcome == Applied <==> Row(db, key).state == from)
      && (outcome == NoOp <==> GivenBefore(db, key, from, next, head))
  {
  }

  // No log row without a subtask row, as in every reachable store.
  predicate LogOfUnseen(db: Db, key: Key) {
    key !in db.subs ==> forall i :: 0 <= i < |db.log| ==> db.log[i].key != key
  }

  lemma ReviewExits(db: Db, key: Key, head: Option<Sha>, approve: bool)
    requires LogOfUnseen(db, key)
    ensures var r, next := ReviewLeg(db, key, head, approve), if approve then ReviewPassed else ReviewFailed;
      var ready := key.task in db.tasks && Pinned(head);
      && (r.exit == NoActiveTask <==> key.task !in db.tasks)
      && (r.exit == HeadUnresolved <==> key.task in db.tasks && !Pinned(head))
      && (r.exit == Done <==> ready && Row(db, key).state == ReviewPending)
      && (r.exit == AlreadyRecorded <==> ready && GivenBefore(db, key, ReviewPending, next, head))
      && (r.exit == TransitionRejected <==>
            ready && Row(db, key).state != ReviewPending && !GivenBefore(db, key, ReviewPending, next, head))
      && (r.exit != Done ==> r.db.log == db.log && Row(r.db, key) == Row(db, key))
  {
    if key.task in db.tasks && Pinned(head) {
      VerdictOutcome(db, key, if approve then ReviewPassed else ReviewFailed, Reviewer, ReviewPending, head);
    }
    hide Decide, GivenBefore, HasRow;
  }

  // The words of a claim against the store: a grant that is not there, or a state
  // other than the one the subtask is in.
  predicate ClaimIsWrong(row: SubtaskRow, claim: Option<Claim>) {
    || (claim == Some(Approved) && row.approved.None?)
    || (claim.Some? && claim.value.Names? && claim.value.state != Some(row.state))
  }

  lemma AcceptanceExits(db: Db, key: Key, head: Option<Sha>, accept: bool, chainOk: bool, claim: Option<Claim>)
    requires LogOfUnseen(db, key)
    ensures var r := AcceptLeg(db, key, head, accept, chainOk, claim);
      var next := if accept then AcceptancePassed else ReviewFailed;
      var ready := key.task in db.tasks && Pinned(head);
      var open := ready && (accept ==> chainOk && !ClaimIsWrong(Row(db, key), claim));
      && (r.exit == NoActiveTask <==> key.task !in db.tasks)
      && (r.exit == HeadUnresolved <==> key.task in db.tasks && !Pinned(head))
      && (r.exit == ChainBroken <==> ready && accept && !chainOk)
      && (r.exit == ClaimMismatch <==> ready && accept && chainOk && ClaimIsWrong(Row(db, key), claim))
      && (r.exit == Done <==> open && Row(db, key).state == ReviewPassed)
      && (r.exit == AlreadyRecorded <==> open && GivenBefore(db, key, ReviewPassed, next, head))
      && (r.exit == TransitionRejected <==>
            open && Row(db, key).state != ReviewPassed && !GivenBefore(db, key, ReviewPassed, next, head))
      && (r.exit != Done ==> r.db.log == db.log && Row(r.db, key) == Row(db, key))
  {
    if key.task in db.tasks && Pinned(head) {
      VerdictOutcome(db, key, if accept then AcceptancePassed else ReviewFailed, Verifier, ReviewPassed, head);
    }
    hide Decide, GivenBefore, HasRow;
  }

  // Verify from its gates on, wherever another actor has moved the subtask to
  // meanwhile: it is recorded - and the pull request bound - exactly when the
  // subtask still awaits it.
  lemma GatesMeanwhile(db: Db, key: Key, pr: int, cfg: Config, s: Sight)
    requires key.task in db.tasks && key in db.subs
    ensures var r, row := GateLeg(db, key, pr, cfg, s), db.subs[key];
      var left := row.verifyAttempts < cfg.maxVerifyAttempts;
      var head := if Gates(s).Passes? then Some(Gates(s).head) else None;
      && (r.exit == Done <==> left && head.Some? && row.state == VerifyPending)
      && (r.exit == AlreadyRecorded <==> left && head.Some? && GivenBefore(db, key, VerifyPending, ReviewPending, head))
      && (r.exit == AttemptCapBlocked <==> !left && row.state in {InProgress, VerifyPending, ReviewFailed})
      && (r.exit != Done ==> key in r.db.subs && r.db.subs[key].pr == row.pr && r.db.audit == db.audit)
      && (r.exit != Done && r.exit != AttemptCapBlocked ==> r.db.log == db.log && r.db.subs[key].state == row.state)
  {
    hide HasRow;
  }
}
