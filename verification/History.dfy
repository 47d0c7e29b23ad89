/**
 What every reachable store keeps. The log of one subtask is a legal path from
 `planned`; the row's state and counters are functions of that path; and legal
 paths are bounded, capped, and enter the merge queue in exactly one way.
 */
module History {
  import opened Basics
  import opened Fsm
  import opened Gate

  // ── the log of one subtask ──────────────────────────────────────────────

  function LogOf(log: seq<LogRow>, key: Key): seq<LogRow> {
    if log == [] then []
    else
      var rest, last := LogOf(log[..|log| - 1], key), log[|log| - 1];
      if last.key == key then rest + [last] else rest
  }

  function EndState(path: seq<LogRow>): State {
    if path == [] then Planned else path[|path| - 1].to
  }

  function CountInto(path: seq<LogRow>, s: State): nat {
    if path == [] then 0
    else CountInto(path[..|path| - 1], s) + (if path[|path| - 1].to == s then 1 else 0)
  }

  predicate Resume(r: LogRow) {
    r.from == Blocked && r.to == InProgress
  }

  // The Watchdog may re-block a blocked subtask: the one idle loop of the FSM.
  predicate Reblock(r: LogRow) {
    r.from == Blocked && r.to == Blocked
  }

  function Resumes(path: seq<LogRow>): nat {
    if path == [] then 0
    else Resumes(path[..|path| - 1]) + (if Resume(path[|path| - 1]) then 1 else 0)
  }

  // Rows other than the idle loop.
  function Progress(path: seq<LogRow>): nat {
    if path == [] then 0
    else Progress(path[..|path| - 1]) + (if Reblock(path[|path| - 1]) then 0 else 1)
  }

  // `r` may follow `path`: connected, permitted by the table, under both caps.
  predicate LegalNext(path: seq<LogRow>, r: LogRow, caps: Caps) {
    && r.from == EndState(path)
    && IsAllowed(r.from, r.role, r.to)
    && (r.from == ReviewFailed && r.to == InProgress ==> CountInto(path, ReviewFailed) < caps.review)
    && (r.to == NeedsRebase ==> CountInto(path, NeedsRebase) < caps.rebase)
  }

  predicate LegalPath(path: seq<LogRow>, caps: Caps) {
    path == [] ||
    ( LegalPath(path[..|path| - 1], caps)
      && LegalNext(path[..|path| - 1], path[|path| - 1], caps))
  }

  // ── reachable stores ────────────────────────────────────────────────────

  // Every committed statement of the program against the store.
  datatype Op =
    | DoTransition(call: Call)
    | DoEnsure(key: Key)
    | DoSetPr(key: Key, pr: int)
    | DoBump(key: Key)
    | DoMark(key: Key, requestedSha: Option<Sha>)
    | DoGrant(key: Key, sha: Sha)
    | DoAudit(row: AuditRow)
    | DoRegister(task: string, taskRow: TaskRow)

  function ApplyOp(db: Db, op: Op): Db {
    match op
    case DoTransition(c) => Transition(db, c).db
    case DoEnsure(key) => if key.task in db.tasks then Ensure(db, key) else db
    case DoSetPr(key, pr) => SetPr(db, key, pr)
    case DoBump(key) => BumpAttempts(db, key)
    case DoMark(key, sha) => MarkRequested(db, key, sha)
    case DoGrant(key, sha) => RecordGrant(db, key, sha)
    case DoAudit(row) => AppendAudit(db, row)
    case DoRegister(task, row) => db.(tasks := db.tasks[task := row])
  }

  const EMPTY := Db(map[], map[], [], [])

  function RunOps(ops: seq<Op>): Db {
    if ops == [] then EMPTY else ApplyOp(RunOps(ops[..|ops| - 1]), ops[|ops| - 1])
  }

  predicate UnderCaps(ops: seq<Op>, caps: Caps) {
    forall op <- ops :: op.DoTransition? ==> op.call.caps == caps
  }

  // The row of a subtask is determined by its log.
  predicate RowMatches(row: SubtaskRow, path: seq<LogRow>, caps: Caps) {
    && LegalPath(path, caps)
    && row.state == EndState(path)
    && row.reviewRound == CountInto(path, ReviewFailed)
    && row.rebaseRounds == CountInto(path, NeedsRebase)
  }

  ghost predicate StoreInv(db: Db, caps: Caps) {
    && (forall key :: key in db.subs ==> RowMatches(db.subs[key], LogOf(db.log, key), caps))
    && (forall key :: key !in db.subs ==> LogOf(db.log, key) == [])
  }

  lemma LogOfSnoc(log: seq<LogRow>, r: LogRow, key: Key)
    ensures LogOf(log + [r], key) == if r.key == key then LogOf(log, key) + [r] else LogOf(log, key)
  {
    assert (log + [r])[..|log|] == log;
  }

  lemma PathSnoc(path: seq<LogRow>, r: LogRow, caps: Caps)
    ensures LegalPath(path + [r], caps) <==> LegalPath(path, caps) && LegalNext(path, r, caps)
    ensures EndState(path + [r]) == r.to
    ensures forall s :: CountInto(path + [r], s) == CountInto(path, s) + (if r.to == s then 1 else 0)
  {
    assert (path + [r])[..|path|] == path;
  }

  // An allowed, uncapped row extends the path its subtask already has.
  lemma MovedRowMatches(row: SubtaskRow, path: seq<LogRow>, c: Call, caps: Caps)
    requires RowMatches(row, path, caps) && c.caps == caps
    requires IsAllowed(row.state, c.role, c.next)
    requires row.state == ReviewFailed && c.role == Coder && c.next == InProgress ==> row.reviewRound < caps.review
    requires c.next == NeedsRebase ==> row.rebaseRounds < caps.rebase
    ensures RowMatches(Moved(row, c.next), path + [LogRow(c.key, row.state, c.next, c.role, c.sha)], caps)
  {
    var r := LogRow(c.key, row.state, c.next, c.role, c.sha);
    ReworkRole(r.from, r.role, r.to);
    PathSnoc(path, r, caps);
    hide Targets;
    assert LegalNext(path, r, caps);
  }

  // One applied transition extends exactly its own subtask's path, legally.
  lemma {:induction false} WriteKeepsInv(db: Db, c: Call, caps: Caps)
    requires StoreInv(db, caps) && c.key in db.subs && c.caps == caps
    requires Decide(db, c) == Applied
    ensures StoreInv(Write(db, c), caps)
  {
    hide RowMatches, LegalPath, LogOf, Targets, Evaluate, AllMerged;
    var after := Write(db, c);
    var r := LogRow(c.key, db.subs[c.key].state, c.next, c.role, c.sha);
    MovedRowMatches(db.subs[c.key], LogOf(db.log, c.key), c, caps);
    forall key
      ensures key in after.subs ==> RowMatches(after.subs[key], LogOf(after.log, key), caps)
      ensures key !in after.subs ==> LogOf(after.log, key) == []
    {
      LogOfSnoc(db.log, r, key);
    }
  }

  // Only the coder can take review_failed back to in_progress.
  lemma ReworkRole(from: State, role: Role, to: State)
    ensures IsAllowed(from, role, to) && from == ReviewFailed && to == InProgress ==> role == Coder
  {
  }

  lemma EnsureKeepsInv(db: Db, key: Key, caps: Caps)
    requires StoreInv(db, caps) && key.task in db.tasks
    ensures StoreInv(Ensure(db, key), caps)
  {
    if key !in db.subs {
      assert RowMatches(FRESH_ROW, [], caps);
    }
  }

  lemma {:induction false} OpKeepsInv(db: Db, op: Op, caps: Caps)
    requires StoreInv(db, caps)
    requires op.DoTransition? ==> op.call.caps == caps
    ensures StoreInv(ApplyOp(db, op), caps)
  {
    hide LegalPath, LogOf, CountInto, EndState, Decide, Write;
    match op
    case DoTransition(c) =>
      if c.key.task in db.tasks {
        EnsureKeepsInv(db, c.key, caps);
        if Decide(Ensure(db, c.key), c) == Applied {
          WriteKeepsInv(Ensure(db, c.key), c, caps);
        }
      }
    case DoEnsure(key) =>
      if key.task in db.tasks { EnsureKeepsInv(db, key, caps); }
    case DoSetPr(_, _) =>
    case DoBump(_) =>
    case DoMark(_, _) =>
    case DoGrant(_, _) =>
    case DoAudit(_) =>
    case DoRegister(_, _) =>
  }

  lemma {:induction false} RunKeepsInv(ops: seq<Op>, caps: Caps)
    requires UnderCaps(ops, caps)
    ensures StoreInv(RunOps(ops), caps)
  {
    if ops != [] {
      var front, last := ops[..|ops| - 1], ops[|ops| - 1];
      assert last in ops;
      RunKeepsInv(front, caps);
      OpKeepsInv(RunOps(front), last, caps);
    }
  }

  // ── counters and caps ───────────────────────────────────────────────────

  // The send-back cap is never exceeded.
  lemma {:induction false} RebaseRoundsCapped(path: seq<LogRow>, caps: Caps)
    requires LegalPath(path, caps)
    ensures CountInto(path, NeedsRebase) <= caps.rebase
  {
    if path != [] {
      RebaseRoundsCapped(path[..|path| - 1], caps);
    }
  }

  // The review cap yields only to a resume: at the bound the subtask rests in
  // review_failed, blocked or abandoned until the Conductor resumes it.
  lemma {:induction false} ReviewRoundsCapped(path: seq<LogRow>, caps: Caps)
    requires LegalPath(path, caps)
    ensures CountInto(path, ReviewFailed) <= Max(caps.review, 1) + Resumes(path)
    ensures CountInto(path, ReviewFailed) == Max(caps.review, 1) + Resumes(path) ==>
              EndState(path) in {ReviewFailed, Blocked, Abandoned}
  {
    if path != [] {
      var front, last := path[..|path| - 1], path[|path| - 1];
      ReviewRoundsCapped(front, caps);
      if last.from == ReviewFailed && last.to == InProgress {
        assert CountInto(front, ReviewFailed) < caps.review;
      }
    }
  }

  // A resume taken when the count already stood at the cap.
  predicate ResumedAtCap(path: seq<LogRow>, i: nat, caps: Caps) {
    i < |path| && Resume(path[i]) && CountInto(path[..i], ReviewFailed) >= Max(caps.review, 1)
  }

  predicate FailedAfter(path: seq<LogRow>, i: nat) {
    exists j :: i < j < |path| && path[j].to == ReviewFailed
  }

  lemma OnLongerPath(path: seq<LogRow>, i: nat, caps: Caps)
    requires path != [] && ResumedAtCap(path[..|path| - 1], i, caps)
    ensures ResumedAtCap(path, i, caps)
    ensures FailedAfter(path[..|path| - 1], i) || path[|path| - 1].to == ReviewFailed ==> FailedAfter(path, i)
  {
    var front := path[..|path| - 1];
    assert path[..i] == front[..i];
    if FailedAfter(front, i) {
      var j :| i < j < |front| && front[j].to == ReviewFailed;
      assert path[j].to == ReviewFailed;
    }
  }

  // Until such a resume the count stops at the cap, and the subtask with it.
  lemma {:induction false} RestsAtCap(path: seq<LogRow>, caps: Caps)
    requires LegalPath(path, caps)
    ensures CountInto(path, ReviewFailed) > Max(caps.review, 1) ==>
      exists i :: ResumedAtCap(path, i, caps) && FailedAfter(path, i)
    ensures CountInto(path, ReviewFailed) == Max(caps.review, 1) ==>
      EndState(path) in {ReviewFailed, Blocked, Abandoned} || exists i :: ResumedAtCap(path, i, caps)
  {
    if path != [] {
      var front, last := path[..|path| - 1], path[|path| - 1];
      RestsAtCap(front, caps);
      if i: nat :| ResumedAtCap(front, i, caps) && FailedAfter(front, i) {
        OnLongerPath(path, i, caps);
      } else if i: nat :| ResumedAtCap(front, i, caps) {
        OnLongerPath(path, i, caps);
      } else if Resume(last) && CountInto(front, ReviewFailed) >= Max(caps.review, 1) {
        assert ResumedAtCap(path, |path| - 1, caps);
      }
    }
  }

  lemma {:induction false} CountSplits(path: seq<LogRow>, i: nat, s: State)
    requires i <= |path|
    ensures CountInto(path, s) >= CountInto(path[..i], s)
    ensures (exists j :: i <= j < |path| && path[j].to == s) ==> CountInto(path, s) > CountInto(path[..i], s)
    decreases |path|
  {
    if i < |path| {
      var front := path[..|path| - 1];
      assert front[..i] == path[..i];
      CountSplits(front, i, s);
      if path[|path| - 1].to != s && exists j :: i <= j < |path| && path[j].to == s {
        var j :| i <= j < |path| && path[j].to == s;
        assert front[j].to == s;
      }
    } else {
      assert path[..i] == path;
    }
  }

  // The count passes the cap exactly when a subtask was resumed while it stood
  // there and then failed review again.
  lemma PassesCapIff(path: seq<LogRow>, caps: Caps)
    requires LegalPath(path, caps)
    ensures CountInto(path, ReviewFailed) > Max(caps.review, 1) <==>
      exists i :: ResumedAtCap(path, i, caps) && FailedAfter(path, i)
  {
    if i: nat :| ResumedAtCap(path, i, caps) && FailedAfter(path, i) {
      var j :| i < j < |path| && path[j].to == ReviewFailed;
      CountSplits(path, i, ReviewFailed);
    } else {
      RestsAtCap(path, caps);
    }
  }

  // ── every legal path is the log of a run ────────────────────────────────

  const UNGATED := TaskRow("", Active, "owner", Some([]), Some("owner"))

  // Register an ungated task, then issue the calls a path names.
  function Issuing(key: Key, path: seq<LogRow>, caps: Caps): seq<Op> {
    if path == [] then [DoRegister(key.task, UNGATED), DoEnsure(key)]
    else
      var last := path[|path| - 1];
      Issuing(key, path[..|path| - 1], caps) + [DoTransition(Call(key, last.to, last.role, caps, last.sha))]
  }

  lemma RunSnoc(ops: seq<Op>, op: Op)
    ensures RunOps(ops + [op]) == ApplyOp(RunOps(ops), op)
  {
    assert (ops + [op])[..|ops|] == ops;
  }

  // Nothing but the table and the two caps can turn such a call away.
  lemma UngatedStep(db: Db, path: seq<LogRow>, r: LogRow, caps: Caps)
    requires r.key in db.subs && r.key.task in db.tasks && db.tasks[r.key.task].required == Some([])
    requires RowMatches(db.subs[r.key], path, caps) && LegalNext(path, r, caps)
    ensures var after := Transition(db, Call(r.key, r.to, r.role, caps, r.sha));
      && after.outcome == Applied && after.db.log == db.log + [r]
      && r.key in after.db.subs && r.key.task in after.db.tasks
      && after.db.tasks[r.key.task].required == Some([])
  {
    hide Targets, LegalPath, AllMerged;
  }

  lemma {:induction false} PathIsRun(key: Key, path: seq<LogRow>, caps: Caps)
    requires LegalPath(path, caps) && forall r <- path :: r.key == key
    ensures UnderCaps(Issuing(key, path, caps), caps)
    ensures var db := RunOps(Issuing(key, path, caps));
      && db.log == path && LogOf(db.log, key) == path && key in db.subs
      && key.task in db.tasks && db.tasks[key.task].required == Some([])
    decreases |path|
  {
    var ops := Issuing(key, path, caps);
    if path == [] {
      assert ops == [] + [DoRegister(key.task, UNGATED)] + [DoEnsure(key)];
      RunSnoc([], DoRegister(key.task, UNGATED));
      RunSnoc([DoRegister(key.task, UNGATED)], DoEnsure(key));
    } else {
      var front, last := path[..|path| - 1], path[|path| - 1];
      assert path == front + [last] && last in path;
      forall r | r in front
        ensures r.key == key
      {
        assert r in path;
      }
      PathIsRun(key, front, caps);
      var call := Call(key, last.to, last.role, caps, last.sha);
      var before := Issuing(key, front, caps);
      RunSnoc(before, DoTransition(call));
      RunKeepsInv(before, caps);
      UngatedStep(RunOps(before), front, last, caps);
      LogOfSnoc(RunOps(before).log, last, key);
      hide Transition, LegalPath, LegalNext, RowMatches;
    }
  }

  // ── the review bound is reached ─────────────────────────────────────────

  function At(key: Key, from: State, to: State, role: Role): LogRow {
    LogRow(key, from, to, role, None)
  }

  // From in_progress to a failed review.
  function FailLap(key: Key): seq<LogRow> {
    [ At(key, InProgress, VerifyPending, Coder), At(key, VerifyPending, ReviewPending, Coder),
      At(key, ReviewPending, ReviewFailed, Reviewer) ]
  }

  lemma FailLapIsLegal(key: Key, path: seq<LogRow>, caps: Caps)
    requires LegalPath(path, caps) && EndState(path) == InProgress && forall r <- path :: r.key == key
    ensures var after := path + FailLap(key);
      && LegalPath(after, caps) && EndState(after) == ReviewFailed && (forall r <- after :: r.key == key)
      && CountInto(after, ReviewFailed) == CountInto(path, ReviewFailed) + 1 && Resumes(after) == Resumes(path)
  {
    var lap := FailLap(key);
    OneMore(path, lap[0], caps);
    OneMore(path + [lap[0]], lap[1], caps);
    OneMore(path + [lap[0]] + [lap[1]], lap[2], caps);
    assert path + lap == path + [lap[0]] + [lap[1]] + [lap[2]];
  }

  lemma OneMore(path: seq<LogRow>, r: LogRow, caps: Caps)
    ensures LegalPath(path + [r], caps) <==> LegalPath(path, caps) && LegalNext(path, r, caps)
    ensures EndState(path + [r]) == r.to
    ensures CountInto(path + [r], ReviewFailed) == CountInto(path, ReviewFailed) + if r.to == ReviewFailed then 1 else 0
    ensures Resumes(path + [r]) == Resumes(path) + if Resume(r) then 1 else 0
  {
    assert (path + [r])[..|path|] == path;
  }

  // `n` failed reviews, the first `max(cap, 1)` by plain rework, every further
  // one after a block and a resume.
  function Failing(key: Key, caps: Caps, n: nat): seq<LogRow>
    requires n >= 1
  {
    if n == 1 then [At(key, Planned, Assigned, Conductor), At(key, Assigned, InProgress, Coder)] + FailLap(key)
    else
      Failing(key, caps, n - 1) + BackToWork(key, caps, n) + FailLap(key)
  }

  function BackToWork(key: Key, caps: Caps, n: nat): seq<LogRow> {
    if n <= caps.review then [At(key, ReviewFailed, InProgress, Coder)]
    else [At(key, ReviewFailed, Blocked, Coder), At(key, Blocked, InProgress, Conductor)]
  }

  lemma {:induction false} FailingIsLegal(key: Key, caps: Caps, n: nat)
    requires n >= 1
    ensures var path := Failing(key, caps, n);
      && LegalPath(path, caps) && EndState(path) == ReviewFailed && (forall r <- path :: r.key == key)
      && CountInto(path, ReviewFailed) == n
      && Resumes(path) == Left(n, Max(caps.review, 1))
  {
    if n == 1 {
      var a, b := At(key, Planned, Assigned, Conductor), At(key, Assigned, InProgress, Coder);
      OneMore([], a, caps);
      OneMore([] + [a], b, caps);
      assert [] + [a] + [b] == [a, b];
      FailLapIsLegal(key, [a, b], caps);
    } else {
      FailingIsLegal(key, caps, n - 1);
      hide LegalPath, CountInto, EndState, Resumes, FailLap;
      AgainIsLegal(key, Failing(key, caps, n - 1), caps, n);
    }
  }

  // The n-th failed review after one less.
  lemma AgainIsLegal(key: Key, path: seq<LogRow>, caps: Caps, n: nat)
    requires LegalPath(path, caps) && EndState(path) == ReviewFailed && forall r <- path :: r.key == key
    requires n > 1 && CountInto(path, ReviewFailed) == n - 1
    ensures var after := path + BackToWork(key, caps, n) + FailLap(key);
      && LegalPath(after, caps) && EndState(after) == ReviewFailed && (forall r <- after :: r.key == key)
      && CountInto(after, ReviewFailed) == n
      && Resumes(after) == Resumes(path) + if n <= caps.review then 0 else 1
  {
    hide LegalPath, CountInto, EndState, Resumes, FailLap;
    if n <= caps.review {
      var rework := At(key, ReviewFailed, InProgress, Coder);
      OneMore(path, rework, caps);
      FailLapIsLegal(key, path + [rework], caps);
    } else {
      var block, resume := At(key, ReviewFailed, Blocked, Coder), At(key, Blocked, InProgress, Conductor);
      OneMore(path, block, caps);
      OneMore(path + [block], resume, caps);
      assert path + [block] + [resume] == path + [block, resume];
      FailLapIsLegal(key, path + [block, resume], caps);
    }
  }

  predicate FailsOften(db: Db, key: Key, caps: Caps, resumes: nat) {
    && key in db.subs && Resumes(LogOf(db.log, key)) == resumes
    && db.subs[key].reviewRound == Max(caps.review, 1) + resumes
  }

  // The bound is tight: under any caps and for any number of resumes, some run
  // of the store makes its review count exactly max(cap, 1) plus that number.
  lemma ReviewBoundIsReached(key: Key, caps: Caps, resumes: nat)
    ensures exists ops :: UnderCaps(ops, caps) && FailsOften(RunOps(ops), key, caps, resumes)
  {
    var n := Max(caps.review, 1) + resumes;
    var path := Failing(key, caps, n);
    FailingIsLegal(key, caps, n);
    PathIsRun(key, path, caps);
    var ops := Issuing(key, path, caps);
    RunKeepsInv(ops, caps);
    assert FailsOften(RunOps(ops), key, caps, resumes);
  }

  // In every reachable store the durable counters are exactly the numbers of
  // log rows into review_failed and needs_rebase, and both respect their caps.
  lemma {:induction false} CountersAreCapped(ops: seq<Op>, caps: Caps, key: Key)
    requires UnderCaps(ops, caps) && key in RunOps(ops).subs
    ensures var db := RunOps(ops);
      var row, path := db.subs[key], LogOf(db.log, key);
      && row.reviewRound == CountInto(path, ReviewFailed)
      && row.rebaseRounds == CountInto(path, NeedsRebase)
      && row.rebaseRounds <= caps.rebase
      && row.reviewRound <= Max(caps.review, 1) + Resumes(path)
  {
    RunKeepsInv(ops, caps);
    var path := LogOf(RunOps(ops).log, key);
    RebaseRoundsCapped(path, caps);
    ReviewRoundsCapped(path, caps);
  }

  // ── runs are bounded ────────────────────────────────────────────────────

  // How much of one lap a state has left; review_failed may start another lap
  // only while the review budget lasts.
  function Rank(s: State, reviewLeft: nat): nat {
    match s
    case Planned => 9
    case Assigned => 8
    case NeedsRebase => 8
    case InProgress => 7
    case VerifyPending => 6
    case ReviewPending => 5
    case ReviewPassed => 4
    case AcceptancePassed => 3
    case MergePending => 2
    case ReviewFailed => if reviewLeft > 0 then 8 else 2
    case Blocked => 1
    case Merged => 0
    case Abandoned => 0
  }

  function Potential(path: seq<LogRow>, caps: Caps): nat {
    var reviewLeft := Left(caps.review, CountInto(path, ReviewFailed));
    7 * Left(caps.rebase, CountInto(path, NeedsRebase)) + 7 * reviewLeft + Rank(EndState(path), reviewLeft)
  }

  // Every step but the idle re-block uses up potential; a resume buys 7 back.
  lemma StepUsesPotential(path: seq<LogRow>, r: LogRow, caps: Caps)
    requires LegalNext(path, r, caps)
    ensures Potential(path + [r], caps) + (if Reblock(r) then 0 else 1)
         <= Potential(path, caps) + (if Resume(r) then 7 else 0)
  {
    PathSnoc(path, r, caps);
  }

  lemma {:induction false} PathIsBounded(path: seq<LogRow>, caps: Caps)
    requires LegalPath(path, caps)
    ensures Progress(path) + Potential(path, caps) <= 9 + 7 * (caps.review + caps.rebase + Resumes(path))
  {
    if path != [] {
      var front, last := path[..|path| - 1], path[|path| - 1];
      PathIsBounded(front, caps);
      StepUsesPotential(front, last, caps);
      assert path == front + [last];
    }
  }

  // A subtask's log, the Watchdog's re-blocks aside, is at most linear in the
  // two caps and the number of Conductor resumes - whatever the other actors do.
  lemma {:induction false} RunsAreBounded(ops: seq<Op>, caps: Caps, key: Key)
    requires UnderCaps(ops, caps)
    ensures var path := LogOf(RunOps(ops).log, key);
      Progress(path) <= 9 + 7 * (caps.review + caps.rebase + Resumes(path))
  {
    RunKeepsInv(ops, caps);
    PathIsBounded(LogOf(RunOps(ops).log, key), caps);
  }

  // ── the only way into the merge queue ───────────────────────────────────

  predicate Enters(r: LogRow, from: State, role: Role, to: State) {
    r.from == from && r.role == role && r.to == to
  }

  // The last rows of a path that rests in merge_pending, from in_progress on.
  predicate QueuedLap(path: seq<LogRow>) {
    var n := |path|;
    || ( n >= 5
         && path[n - 5].to == InProgress
         && Enters(path[n - 4], InProgress, Coder, VerifyPending)
         && Enters(path[n - 3], VerifyPending, Coder, ReviewPending)
         && Enters(path[n - 2], ReviewPending, Reviewer, ReviewPassed)
         && Enters(path[n - 1], ReviewPassed, Mergemaster, MergePending))
    || ( n >= 6
         && path[n - 6].to == InProgress
         && Enters(path[n - 5], InProgress, Coder, VerifyPending)
         && Enters(path[n - 4], VerifyPending, Coder, ReviewPending)
         && Enters(path[n - 3], ReviewPending, Reviewer, ReviewPassed)
         && Enters(path[n - 2], ReviewPassed, Verifier, AcceptancePassed)
         && Enters(path[n - 1], AcceptancePassed, Mergemaster, MergePending))
  }

  // The table read backwards, wildcards included: who may bring a subtask into
  // a state, and from where.
  predicate MayEnter(from: State, role: Role, to: State) {
    match to
    case Planned => false
    case Assigned => from == Planned && role == Conductor
    case InProgress =>
      || (role == Coder && (from == Assigned || from == ReviewFailed || from == NeedsRebase))
      || (role == Conductor && from == Blocked)
    case VerifyPending => role == Coder && from == InProgress
    case ReviewPending => role == Coder && from == VerifyPending
    case ReviewPassed => role == Reviewer && from == ReviewPending
    case ReviewFailed => (role == Reviewer && from == ReviewPending) || (role == Verifier && from == ReviewPassed)
    case AcceptancePassed => role == Verifier && from == ReviewPassed
    case MergePending => role == Mergemaster && (from == ReviewPassed || from == AcceptancePassed)
    case Merged => role == Mergemaster && from == MergePending
    case NeedsRebase =>
      role == Mergemaster && (from == ReviewPassed || from == AcceptancePassed || from == MergePending)
    case Blocked =>
      || (role == Watchdog && !Terminal(from))
      || (role == Coder && (from == InProgress || from == VerifyPending || from == ReviewFailed))
      || (role == Mergemaster && (from == ReviewPassed || from == AcceptancePassed || from == MergePending))
    case Abandoned => role == Conductor && !Terminal(from)
  }

  lemma EveryWayIn(from: State, role: Role, to: State)
    ensures IsAllowed(from, role, to) <==> MayEnter(from, role, to)
  {
    if BeforeReview(from) { WayInBefore(from, role, to); } else { WayInAfter(from, role, to); }
    hide IsAllowed, MayEnter;
  }

  predicate BeforeReview(s: State) {
    s == Planned || s == Assigned || s == InProgress || s == VerifyPending || s == NeedsRebase || s == Blocked
  }

  lemma WayInBefore(from: State, role: Role, to: State)
    requires BeforeReview(from)
    ensures IsAllowed(from, role, to) <==> MayEnter(from, role, to)
  {
  }

  lemma WayInAfter(from: State, role: Role, to: State)
    requires !BeforeReview(from)
    ensures IsAllowed(from, role, to) <==> MayEnter(from, role, to)
  {
  }

  // The last row of a non-empty legal path, and the path before it.
  lemma LastStep(path: seq<LogRow>, caps: Caps)
    requires LegalPath(path, caps) && EndState(path) != Planned
    ensures path != []
    ensures var front, last := path[..|path| - 1], path[|path| - 1];
      && LegalPath(front, caps) && last.from == EndState(front) && last.to == EndState(path)
      && MayEnter(last.from, last.role, last.to)
  {
    EveryWayIn(path[|path| - 1].from, path[|path| - 1].role, path[|path| - 1].to);
    hide IsAllowed, MayEnter;
  }

  lemma PassedLap(path: seq<LogRow>, caps: Caps)
    requires LegalPath(path, caps) && EndState(path) == ReviewPassed
    ensures var n := |path|;
      && n >= 4 && path[n - 4].to == InProgress
      && Enters(path[n - 3], InProgress, Coder, VerifyPending)
      && Enters(path[n - 2], VerifyPending, Coder, ReviewPending)
      && Enters(path[n - 1], ReviewPending, Reviewer, ReviewPassed)
  {
    hide LegalPath, EndState;
    var n := |path|;
    LastStep(path, caps);
    LastStep(path[..n - 1], caps);
    LastStep(path[..n - 1][..n - 2], caps);
    LastStep(path[..n - 1][..n - 2][..n - 3], caps);
  }

  lemma QueuedPathLap(path: seq<LogRow>, caps: Caps)
    requires LegalPath(path, caps) && EndState(path) == MergePending
    ensures QueuedLap(path)
  {
    hide LegalPath, EndState;
    var n := |path|;
    LastStep(path, caps);
    var front := path[..n - 1];
    if path[n - 1].from == ReviewPassed {
      PassedLap(front, caps);
    } else {
      LastStep(front, caps);
      PassedLap(front[..n - 2], caps);
    }
  }

  // A queued subtask - gated or not - has just made one full verified and
  // reviewed lap, with nothing in between.
  lemma {:induction false} QueuedAfterOneLap(ops: seq<Op>, caps: Caps, key: Key)
    requires UnderCaps(ops, caps)
    requires key in RunOps(ops).subs && RunOps(ops).subs[key].state == MergePending
    ensures QueuedLap(LogOf(RunOps(ops).log, key))
  {
    RunKeepsInv(ops, caps);
    hide LegalPath, EndState, QueuedLap, RunOps, LogOf;
    QueuedPathLap(LogOf(RunOps(ops).log, key), caps);
  }

  // The log of a subtask is one connected path from `planned`.
  lemma {:induction false} PathConnected(path: seq<LogRow>, caps: Caps, i: nat)
    requires LegalPath(path, caps) && i < |path|
    ensures path[i].from == if i == 0 then Planned else path[i - 1].to
    ensures IsAllowed(path[i].from, path[i].role, path[i].to)
  {
    if i < |path| - 1 {
      PathConnected(path[..|path| - 1], caps, i);
    }
  }

  // ── isolation and task completion ───────────────────────────────────────

  // A transition touches its own row, one log row, and at most its own task's
  // status - and that only from active to completed when every row is merged.
  lemma TransitionIsLocal(db: Db, c: Call)
    ensures var after := Transition(db, c).db;
      && after.audit == db.audit
      && after.subs.Keys <= db.subs.Keys + {c.key} && db.subs.Keys <= after.subs.Keys
      && (forall k :: k in db.subs && k != c.key ==> after.subs[k] == db.subs[k])
      && (after.log == db.log || (|after.log| == |db.log| + 1 && IsPrefix(db.log, after.log)
                                   && after.log[|db.log|].key == c.key))
      && after.tasks.Keys == db.tasks.Keys
      && (forall t :: t in db.tasks && after.tasks[t] != db.tasks[t] ==>
            && t == c.key.task && c.next == Merged
            && db.tasks[t].status == Active
            && after.tasks[t] == db.tasks[t].(status := Completed)
            && AllMerged(after.subs, t))
  {
  }

  // An applied transition into merged completes the task exactly when it was
  // active and this was its last subtask.
  lemma CompletesIffLast(db: Db, c: Call)
    requires c.key.task in db.tasks && c.next == Merged
    requires Transition(db, c).outcome == Applied
    ensures var after := Transition(db, c).db;
      after.tasks[c.key.task].status ==
        if db.tasks[c.key.task].status == Active
           && (forall k :: k in db.subs && k.task == c.key.task && k != c.key ==> db.subs[k].state == Merged)
        then Completed else db.tasks[c.key.task].status
  {
    var ready := Ensure(db, c.key);
    var subs := ready.subs[c.key := Moved(ready.subs[c.key], c.next)];
    assert AllMerged(subs, c.key.task) <==>
      forall k :: k in db.subs && k.task == c.key.task && k != c.key ==> db.subs[k].state == Merged
    by {
      if forall k :: k in db.subs && k.task == c.key.task && k != c.key ==> db.subs[k].state == Merged {
        forall k | k in subs && k.task == c.key.task
          ensures subs[k].state == Merged
        {
          if k != c.key { assert k in db.subs; }
        }
      }
      if AllMerged(subs, c.key.task) {
        forall k | k in db.subs && k.task == c.key.task && k != c.key
          ensures db.subs[k].state == Merged
        {
          assert k in subs;
        }
      }
    }
  }

  // An abandoned sibling keeps an active task open for every later run.
  lemma {:induction false} AbandonedSiblingNeverCompletes(db: Db, calls: seq<Call>, sibling: Key)
    requires sibling in db.subs && db.subs[sibling].state == Abandoned
    requires sibling.task in db.tasks && db.tasks[sibling.task].status == Active
    ensures var end := RunAll(db, calls);
      && sibling in end.subs && end.subs[sibling].state == Abandoned
      && sibling.task in end.tasks && end.tasks[sibling.task].status == Active
    decreases |calls|
  {
    if calls != [] {
      TransitionIsLocal(db, calls[0]);
      RunAllStep(db, calls);
      AbandonedSiblingNeverCompletes(Transition(db, calls[0]).db, calls[1..], sibling);
    }
  }

  // A rejected transition leaves the store as it was exactly when the row
  // existed (or its task does not): on an unseen subtask id the row insert is
  // its own commit, so the rejection still leaves a `planned` row behind.
  lemma RejectionIsSilentIff(db: Db, c: Call)
    requires Transition(db, c).outcome != Applied
    ensures Transition(db, c).db == db <==> c.key in db.subs || c.key.task !in db.tasks
    ensures Transition(db, c).db.log == db.log
  {
    if c.key !in db.subs && c.key.task in db.tasks {
      assert c.key in Transition(db, c).db.subs;
    }
  }

  // Such a leftover row holds an otherwise finished task open: merging its last
  // subtask completes the task, but no longer after any rejected call on an id
  // of the same task that had no row.
  lemma LeftoverHoldsTaskOpen(db: Db, last: Call, stray: Call)
    requires last.key.task in db.tasks && db.tasks[last.key.task].status == Active
    requires last.key in db.subs && db.subs[last.key].state == MergePending
    requires last.next == Merged && last.role == Mergemaster
    requires forall k :: k in db.subs && k.task == last.key.task && k != last.key ==> db.subs[k].state == Merged
    requires stray.key.task == last.key.task && stray.key !in db.subs
    requires Transition(db, stray).outcome != Applied
    ensures Transition(db, last).db.tasks[last.key.task].status == Completed
    ensures var after := Transition(Transition(db, stray).db, last);
      after.outcome == Applied && after.db.tasks[last.key.task].status == Active
  {
    CompletesIffLast(db, last);
    var after := Transition(db, stray).db;
    assert stray.key in after.subs && after.subs[stray.key].state == Planned;
    CompletesIffLast(after, last);
  }

  // ── escape hatches and retries ──────────────────────────────────────────

  // Whoever a cap turns away may escalate the same subtask to blocked instead.
  lemma CapLeavesEscape(db: Db, c: Call)
    requires Transition(db, c).outcome in {ReviewCapReached, RebaseCapReached}
    ensures Transition(db, c.(next := Blocked)).outcome == Applied
  {
  }

  // Issuing an applied SHA-pinned call again writes nothing and says so, unless
  // it left the subtask in a rework state, where the verdict must be re-earned.
  lemma RetryIsNoOp(db: Db, c: Call)
    requires Transition(db, c).outcome == Applied && c.sha.Some? && c.role != Watchdog
    ensures var after := Transition(db, c).db;
      Transition(after, c) == Result(if ReworkState(c.next) then Illegal else NoOp, after)
  {
    var ready := Ensure(db, c.key);
    var after := Write(ready, c);
    assert after.log[|ready.log|] == LogRow(c.key, ready.subs[c.key].state, c.next, c.role, c.sha);
    assert HasRow(after.log, c.key, c.next, c.sha);
    assert !IsAllowed(c.next, c.role, c.next);
  }

  // Edges still needed to land a subtask from a state.
  function Distance(s: State): nat
    requires s != Abandoned
  {
    match s
    case Merged => 0
    case MergePending => 1
    case ReviewPassed => 2
    case AcceptancePassed => 2
    case ReviewPending => 3
    case VerifyPending => 4
    case InProgress => 5
    case Assigned => 6
    case NeedsRebase => 6
    case ReviewFailed => 6
    case Blocked => 6
    case Planned => 7
  }

  function NextHop(s: State): State {
    match s
    case Planned => Assigned
    case InProgress => VerifyPending
    case VerifyPending => ReviewPending
    case ReviewPending => ReviewPassed
    case ReviewPassed => MergePending
    case AcceptancePassed => MergePending
    case MergePending => Merged
    case _ => InProgress
  }

  function HopRole(s: State): Role {
    match s
    case Planned => Conductor
    case Blocked => Conductor
    case ReviewPending => Reviewer
    case ReviewPassed => Mergemaster
    case AcceptancePassed => Mergemaster
    case MergePending => Mergemaster
    case _ => Coder
  }

  // No state is a dead end: while a subtask is neither merged nor abandoned,
  // one of its expected actors has an edge that brings it closer to merged.
  lemma NoDeadEnd(s: State)
    ensures StateToRoles(s) == {} <==> Terminal(s)
    ensures !Terminal(s) ==>
              HopRole(s) in StateToRoles(s) && IsAllowed(s, HopRole(s), NextHop(s))
    ensures !Terminal(s) ==>
              NextHop(s) != Abandoned && Distance(NextHop(s)) == Distance(s) - 1
  {
    if Terminal(s) {
      assert forall role :: Targets(s, role) == {};
    } else {
      assert NextHop(s) in Targets(s, HopRole(s));
      assert HopRole(s) in StateToRoles(s);
    }
  }
}
