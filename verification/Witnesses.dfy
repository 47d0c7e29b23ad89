/**
 Concrete runs, from the very first event, of the program missing a promise its
 documentation makes: each shows that the condition a theorem names does occur.
 */
module Witnesses {
  import opened Basics
  import opened Fsm
  import opened Gate
  import opened History
  import H = Handoff
  import V = VerifyRecovery
  import M = MergeLeg
  import C = CrashRecovery
  import I = Interleaving
  import P = PageWalk
  import N = NudgePatrol
  import L = MemoryLog

  // ── one gated subtask, verified and reviewed at one commit ──────────────

  const TASK := TaskRow("ship it", Active, "owner", Some(DEFAULT_REQUIRED), Some("owner"))
  const KEY := Key("t", "st-1")
  const GRANTED := "aaaa"
  const OTHER := "bbbb"

  function Stage(row: SubtaskRow, log: seq<LogRow>, audit: seq<AuditRow>): Db {
    Db(map["t" := TASK], map[KEY := row], log, audit)
  }

  function Step(from: State, to: State, role: Role, sha: Option<Sha>): LogRow {
    LogRow(KEY, from, to, role, sha)
  }

  function RowCall(r: LogRow): Call {
    Call(KEY, r.to, r.role, DEFAULT_CAPS, r.sha)
  }

  // From in_progress on, at the granted commit.
  const REVIEWED: seq<LogRow> :=
    [ Step(InProgress, VerifyPending, Coder, None), Step(VerifyPending, ReviewPending, Coder, Some(GRANTED)),
      Step(ReviewPending, ReviewPassed, Reviewer, Some(GRANTED)) ]

  const FIRST_LAP: seq<LogRow> :=
    [Step(Planned, Assigned, Conductor, None), Step(Assigned, InProgress, Coder, None)] + REVIEWED

  const QUEUEING := Step(ReviewPassed, MergePending, Mergemaster, Some(GRANTED))

  const BOUND_ROW := FRESH_ROW.(state := ReviewPassed, pr := Some(7))
  const QUEUED_ROW := BOUND_ROW.(state := MergePending)
  const GRANTED_ROW := QUEUED_ROW.(requested := Some(GRANTED), approved := Some(GRANTED))

  function CallsOf(rows: seq<LogRow>): seq<Call> {
    if rows == [] then [] else [RowCall(rows[0])] + CallsOf(rows[1..])
  }

  // Rows that follow each other by edges with no cap and no gate.
  predicate Plain(from: State, rows: seq<LogRow>)
    decreases |rows|
  {
    rows == [] ||
    var r := rows[0];
    && r.key == KEY && r.from == from && IsAllowed(from, r.role, r.to) && from != ReviewFailed
    && r.to !in {MergePending, NeedsRebase, ReviewFailed, Merged}
    && Plain(r.to, rows[1..])
  }

  lemma PlainStep(row: SubtaskRow, log: seq<LogRow>, audit: seq<AuditRow>, r: LogRow)
    requires r.key == KEY && r.from == row.state && IsAllowed(row.state, r.role, r.to) && row.state != ReviewFailed
    requires r.to !in {MergePending, NeedsRebase, ReviewFailed, Merged}
    ensures Transition(Stage(row, log, audit), RowCall(r)).db == Stage(row.(state := r.to), log + [r], audit)
  {
    H.ReworkStep(Stage(row, log, audit), RowCall(r));
    hide Transition;
  }

  function Ends(from: State, rows: seq<LogRow>): State {
    if rows == [] then from else rows[|rows| - 1].to
  }

  lemma {:induction false} PlainRuns(row: SubtaskRow, log: seq<LogRow>, audit: seq<AuditRow>, rows: seq<LogRow>)
    requires Plain(row.state, rows)
    ensures RunAll(Stage(row, log, audit), CallsOf(rows))
         == Stage(row.(state := Ends(row.state, rows)), log + rows, audit)
    decreases |rows|
  {
    if rows == [] {
      assert log + rows == log;
    } else {
      var r, rest := rows[0], rows[1..];
      assert Ends(row.state, rows) == Ends(r.to, rest);
      assert CallsOf(rows)[1..] == CallsOf(rest) && CallsOf(rows)[0] == RowCall(r);
      assert (log + [r]) + rest == log + rows;
      RunAllStep(Stage(row, log, audit), CallsOf(rows));
      hide *;
      PlainHead(row.state, rows);
      PlainStep(row, log, audit, r);
      PlainRuns(row.(state := r.to), log + [r], audit, rest);
    }
  }

  lemma PlainHead(from: State, rows: seq<LogRow>)
    requires rows != [] && Plain(from, rows)
    ensures var r := rows[0];
      && r.key == KEY && r.from == from && IsAllowed(from, r.role, r.to) && from != ReviewFailed
      && r.to !in {MergePending, NeedsRebase, ReviewFailed, Merged}
      && Plain(r.to, rows[1..])
  {
  }

  lemma ReviewedIsPlain()
    ensures Plain(InProgress, REVIEWED)
  {
    assert REVIEWED[1..][1..] == [REVIEWED[2]] && REVIEWED[1..][1..][1..] == [];
    assert Plain(ReviewPending, REVIEWED[1..][1..]);
    assert Plain(VerifyPending, REVIEWED[1..]);
  }

  lemma FirstLapIsPlain()
    ensures Plain(Planned, FIRST_LAP)
  {
    ReviewedIsPlain();
    assert FIRST_LAP[1..][1..] == REVIEWED;
    assert Plain(Assigned, FIRST_LAP[1..]);
  }

  lemma {:induction false} PlainNeverMerges(from: State, rows: seq<LogRow>)
    requires Plain(from, rows)
    ensures forall r <- rows :: r.to != Merged
    decreases |rows|
  {
    if rows != [] {
      PlainNeverMerges(rows[0].to, rows[1..]);
      assert rows == [rows[0]] + rows[1..];
    }
  }

  lemma FirstLapRuns()
    ensures RunAll(Stage(FRESH_ROW, [], []), CallsOf(FIRST_LAP))
         == Stage(FRESH_ROW.(state := ReviewPassed), FIRST_LAP, [])
    ensures forall r <- FIRST_LAP :: r.to != Merged
  {
    FirstLapIsPlain();
    assert [] + FIRST_LAP == FIRST_LAP && Ends(Planned, FIRST_LAP) == ReviewPassed;
    hide RunAll, CallsOf, Ends, Plain, FIRST_LAP;
    PlainNeverMerges(Planned, FIRST_LAP);
    PlainRuns(FRESH_ROW, [], [], FIRST_LAP);
  }

  // At that commit the gate lets the subtask into the queue.
  lemma GatePassesAt(row: SubtaskRow, log: seq<LogRow>, audit: seq<AuditRow>, more: seq<LogRow>)
    requires log == FIRST_LAP + more
    ensures GatePasses(Stage(row, log, audit), KEY, Some(GRANTED))
  {
    assert log[3] == REVIEWED[1] && log[4] == REVIEWED[2];
    assert HasRow(log, KEY, ReviewPending, Some(GRANTED)) && HasRow(log, KEY, ReviewPassed, Some(GRANTED));
  }

  lemma Queues(audit: seq<AuditRow>)
    ensures Transition(Stage(BOUND_ROW, FIRST_LAP, audit), RowCall(QUEUEING))
         == Result(Applied, Stage(QUEUED_ROW, FIRST_LAP + [QUEUEING], audit))
  {
    var db := Stage(BOUND_ROW, FIRST_LAP, audit);
    GatePassesAt(BOUND_ROW, FIRST_LAP, audit, []);
    assert FIRST_LAP == FIRST_LAP + [];
    EligibleIffGatePasses(db, KEY, Some(GRANTED));
    hide Evaluate, GatePasses, HasRow;
  }

  // ── runs of the store ───────────────────────────────────────────────────

  ghost predicate Reachable(db: Db) {
    exists ops :: UnderCaps(ops, DEFAULT_CAPS) && RunOps(ops) == db
  }

  lemma OneOpOn(db: Db, op: Op)
    requires Reachable(db) && (op.DoTransition? ==> op.call.caps == DEFAULT_CAPS)
    ensures Reachable(ApplyOp(db, op))
  {
    var ops :| UnderCaps(ops, DEFAULT_CAPS) && RunOps(ops) == db;
    RunSnoc(ops, op);
    assert UnderCaps(ops + [op], DEFAULT_CAPS);
  }

  lemma {:induction false} RowsOn(db: Db, rows: seq<LogRow>)
    requires Reachable(db)
    ensures Reachable(RunAll(db, CallsOf(rows)))
    decreases |rows|
  {
    hide Reachable, Transition;
    if rows != [] {
      OneOpOn(db, DoTransition(RowCall(rows[0])));
      RowsOn(Transition(db, RowCall(rows[0])).db, rows[1..]);
      assert CallsOf(rows)[1..] == CallsOf(rows[1..]);
    }
  }

  lemma FreshIsReachable()
    ensures Reachable(Stage(FRESH_ROW, [], []))
  {
    assert RunOps([]) == EMPTY && UnderCaps([], DEFAULT_CAPS);
    OneOpOn(EMPTY, DoRegister("t", TASK));
    var registered := ApplyOp(EMPTY, DoRegister("t", TASK));
    OneOpOn(registered, DoEnsure(KEY));
    assert ApplyOp(registered, DoEnsure(KEY)) == Stage(FRESH_ROW, [], []);
  }

  lemma ReviewedIsReachable()
    ensures Reachable(Stage(FRESH_ROW.(state := ReviewPassed), FIRST_LAP, []))
  {
    hide *;
    FreshIsReachable();
    FirstLapRuns();
    RowsOn(Stage(FRESH_ROW, [], []), FIRST_LAP);
  }

  const AUDIT := [PrBinding(KEY, 7)]

  lemma QueuedIsReachable()
    ensures Reachable(Stage(QUEUED_ROW, FIRST_LAP + [QUEUEING], AUDIT))
  {
    hide Reachable, Transition;
    ReviewedIsReachable();
    var reviewed := Stage(FRESH_ROW.(state := ReviewPassed), FIRST_LAP, []);
    OneOpOn(reviewed, DoSetPr(KEY, 7));
    assert ApplyOp(reviewed, DoSetPr(KEY, 7)) == Stage(BOUND_ROW, FIRST_LAP, AUDIT);
    Queues(AUDIT);
    OneOpOn(Stage(BOUND_ROW, FIRST_LAP, AUDIT), DoTransition(RowCall(QUEUEING)));
  }

  // A reachable store in which one rejected call on a mistyped id keeps a task
  // from ever completing when its only subtask merges.
  lemma RejectedCallHoldsTaskOpen()
    ensures exists db :: Reachable(db) && HeldOpen(db)
  {
    var db := Stage(QUEUED_ROW, FIRST_LAP + [QUEUEING], AUDIT);
    QueuedIsReachable();
    var merge := Call(KEY, Merged, Mergemaster, DEFAULT_CAPS, Some(GRANTED));
    assert STRAY.key != KEY && STRAY.key !in db.subs;
    LeftoverHoldsTaskOpen(db, merge, STRAY);
    assert HeldOpen(db);
  }

  const STRAY := Call(Key("t", "st-2"), Merged, Mergemaster, DEFAULT_CAPS, None)

  predicate HeldOpen(db: Db) {
    && "t" in db.tasks
    && var merge := Call(KEY, Merged, Mergemaster, DEFAULT_CAPS, Some(GRANTED));
    var rejected := Transition(db, STRAY);
    && rejected.outcome == Illegal
    && Transition(db, merge).db.tasks["t"].status == Completed
    && Transition(rejected.db, merge).outcome == Applied
    && "t" in Transition(rejected.db, merge).db.tasks
    && Transition(rejected.db, merge).db.tasks["t"].status == Active
  }

  // ── the merge leg's hazard ──────────────────────────────────────────────

  const SENT_BACK := Step(MergePending, NeedsRebase, Mergemaster, None)

  const SECOND_LAP: seq<LogRow> := [Step(NeedsRebase, InProgress, Coder, None)] + REVIEWED

  const HAZARD_LOG: seq<LogRow> := FIRST_LAP + [QUEUEING] + [SENT_BACK] + SECOND_LAP

  const HAZARD_ROW := GRANTED_ROW.(state := ReviewPassed, rebaseRounds := 1)

  lemma SecondLapIsPlain()
    ensures Plain(NeedsRebase, SECOND_LAP)
  {
    ReviewedIsPlain();
    assert SECOND_LAP[1..] == REVIEWED;
  }

  lemma SendsBack(audit: seq<AuditRow>)
    ensures Transition(Stage(GRANTED_ROW, FIRST_LAP + [QUEUEING], audit), RowCall(SENT_BACK)).db
         == Stage(GRANTED_ROW.(state := NeedsRebase, rebaseRounds := 1), FIRST_LAP + [QUEUEING] + [SENT_BACK], audit)
  {
  }

  const GRANT_AUDIT := AUDIT + [ApprovalRequest(KEY, Some(GRANTED))] + [ApprovalGrant(KEY, GRANTED)]

  lemma GrantedIsReachable()
    ensures Reachable(Stage(GRANTED_ROW, FIRST_LAP + [QUEUEING], GRANT_AUDIT))
  {
    hide Reachable;
    QueuedIsReachable();
    var queued := Stage(QUEUED_ROW, FIRST_LAP + [QUEUEING], AUDIT);
    OneOpOn(queued, DoMark(KEY, Some(GRANTED)));
    var asked := ApplyOp(queued, DoMark(KEY, Some(GRANTED)));
    OneOpOn(asked, DoGrant(KEY, GRANTED));
    assert ApplyOp(asked, DoGrant(KEY, GRANTED)) == Stage(GRANTED_ROW, FIRST_LAP + [QUEUEING], GRANT_AUDIT);
  }

  // Granted, sent back, and verified and reviewed again at the same commit.
  lemma HazardIsReachable()
    ensures Reachable(Stage(HAZARD_ROW, HAZARD_LOG, GRANT_AUDIT))
  {
    hide Reachable, Plain, RunAll, Transition;
    GrantedIsReachable();
    OneOpOn(Stage(GRANTED_ROW, FIRST_LAP + [QUEUEING], GRANT_AUDIT), DoTransition(RowCall(SENT_BACK)));
    SendsBack(GRANT_AUDIT);
    var row, log := GRANTED_ROW.(state := NeedsRebase, rebaseRounds := 1), FIRST_LAP + [QUEUEING] + [SENT_BACK];
    SecondLapIsPlain();
    PlainRuns(row, log, GRANT_AUDIT, SECOND_LAP);
    RowsOn(Stage(row, log, GRANT_AUDIT), SECOND_LAP);
  }

  // A reachable store, and a PR merged at the commit an old grant still names,
  // from which a crash changes how the merge leg ends.
  lemma HazardExample()
    ensures exists db :: Reachable(db) && InHazard(db)
  {
    var db := Stage(HAZARD_ROW, HAZARD_LOG, GRANT_AUDIT);
    HazardIsReachable();
    GatePassesAt(HAZARD_ROW, HAZARD_LOG, GRANT_AUDIT, [QUEUEING] + [SENT_BACK] + SECOND_LAP);
    assert HAZARD_LOG == FIRST_LAP + ([QUEUEING] + [SENT_BACK] + SECOND_LAP);
    C.CrashConvergesIff(ARGS, db, MERGED_ENV);
    hide GatePasses, C.CrashRun;
    assert InHazard(db);
  }

  const ARGS := M.Args(KEY, None, MAX_REBASE_ROUNDS)
  const MERGED_ENV := M.Env(map[7 := M.Pr(M.PrMerged, Some(GRANTED), M.Mergeable)], true, true, M.Faithful)

  ghost predicate InHazard(db: Db) {
    var c := M.Config(db, MERGED_ENV, M.Start);
    C.Hazard(ARGS, c) && exists crashes :: !C.SameEnd(C.CrashRun(ARGS, c, crashes), M.Finish(ARGS, c))
  }
}
