/**
 What the mutation path (module Fsm) answers, told by the run that led to the
 store: a call is remembered for good, and every other answer has its own
 condition.
 */
module Answers {
  import opened Basics
  import opened Fsm
  import opened Gate
  import opened History

  // Any operations on a store, one after the other.
  function RunFrom(db: Db, ops: seq<Op>): Db {
    if ops == [] then db else ApplyOp(RunFrom(db, ops[..|ops| - 1]), ops[|ops| - 1])
  }

  lemma {:induction false} RunFromEmpty(ops: seq<Op>)
    ensures RunFrom(EMPTY, ops) == RunOps(ops)
    decreases |ops|
  {
    if ops != [] {
      RunFromEmpty(ops[..|ops| - 1]);
    }
  }

  // No operation drops a log row, a subtask or a task.
  lemma OpGrows(db: Db, op: Op)
    ensures var after := ApplyOp(db, op);
      IsPrefix(db.log, after.log) && db.subs.Keys <= after.subs.Keys && db.tasks.Keys <= after.tasks.Keys
  {
    if op.DoTransition? {
      TransitionIsLocal(db, op.call);
      hide Transition;
    }
  }

  lemma {:induction false} RunGrows(db: Db, ops: seq<Op>)
    ensures var end := RunFrom(db, ops);
      IsPrefix(db.log, end.log) && db.subs.Keys <= end.subs.Keys && db.tasks.Keys <= end.tasks.Keys
    decreases |ops|
  {
    hide ApplyOp;
    if ops != [] {
      var mid := RunFrom(db, ops[..|ops| - 1]);
      RunGrows(db, ops[..|ops| - 1]);
      OpGrows(mid, ops[|ops| - 1]);
      PrefixTransitive(db.log, mid.log, RunFrom(db, ops).log);
    }
  }

  lemma AppliedLeavesRow(db: Db, c: Call)
    requires Transition(db, c).outcome == Applied
    ensures var after := Transition(db, c).db;
      c.key.task in after.tasks && c.key in after.subs && HasRow(after.log, c.key, c.next, c.sha)
  {
    var ready := Ensure(db, c.key);
    var after := Transition(db, c).db;
    hide Decide;
    assert after.log[|ready.log|] == LogRow(c.key, ready.subs[c.key].state, c.next, c.role, c.sha);
  }

  // A SHA-pinned call that applied is remembered: issued again after whatever
  // else happened, it does nothing and says so - unless the table allows it
  // anew, or the subtask is in rework, where the verdict must be re-earned.
  lemma RetryAfterAnything(db: Db, c: Call, later: seq<Op>)
    requires Transition(db, c).outcome == Applied && c.sha.Some?
    ensures var end := RunFrom(Transition(db, c).db, later);
      && c.key in end.subs
      && var state := end.subs[c.key].state;
         var rework := state in {NeedsRebase, ReviewFailed, Blocked};
      && (Transition(end, c).outcome == NoOp <==> !IsAllowed(state, c.role, c.next) && !rework)
      && (Transition(end, c).outcome == Illegal <==> !IsAllowed(state, c.role, c.next) && rework)
      && (!IsAllowed(state, c.role, c.next) ==> Transition(end, c).db == end)
  {
    var after := Transition(db, c).db;
    var end := RunFrom(after, later);
    AppliedLeavesRow(db, c);
    RunGrows(after, later);
    RowMonotone(after.log, end.log, c.key, c.next, c.sha);
    hide IsAllowed, HasRow, RunFrom, Evaluate;
  }

  // Some call of the run moved the subtask there, at that SHA.
  ghost predicate Recorded(ops: seq<Op>, key: Key, to: State, sha: Option<Sha>) {
    exists i: nat :: i < |ops| && Records(RunOps(ops[..i]), ops[i], key, to, sha)
  }

  predicate Records(db: Db, op: Op, key: Key, to: State, sha: Option<Sha>) {
    && op.DoTransition? && op.call.key == key && op.call.next == to && op.call.sha == sha
    && Transition(db, op.call).outcome == Applied
  }

  lemma OpRow(db: Db, op: Op, key: Key, to: State, sha: Option<Sha>)
    ensures HasRow(ApplyOp(db, op).log, key, to, sha)
       <==> HasRow(db.log, key, to, sha) || Records(db, op, key, to, sha)
  {
    if op.DoTransition? {
      var c := op.call;
      if Transition(db, c).outcome == Applied {
        var ready := Ensure(db, c.key);
        RowSnoc(db.log, LogRow(c.key, ready.subs[c.key].state, c.next, c.role, c.sha), key, to, sha);
      } else {
        RejectionIsSilentIff(db, c);
      }
    }
    hide Decide, HasRow;
  }

  lemma RecordedSnoc(ops: seq<Op>, key: Key, to: State, sha: Option<Sha>)
    requires ops != []
    ensures var front, last := ops[..|ops| - 1], ops[|ops| - 1];
      Recorded(ops, key, to, sha) <==> Recorded(front, key, to, sha) || Records(RunOps(front), last, key, to, sha)
  {
    hide Records, RunOps;
    var front, last := ops[..|ops| - 1], ops[|ops| - 1];
    if i: nat :| i < |ops| && Records(RunOps(ops[..i]), ops[i], key, to, sha) {
      if i < |front| { assert front[..i] == ops[..i] && front[i] == ops[i]; }
    }
    if i: nat :| i < |front| && Records(RunOps(front[..i]), front[i], key, to, sha) {
      assert front[..i] == ops[..i] && front[i] == ops[i];
    }
  }

  // The log holds what the calls of the run recorded, and nothing else.
  lemma {:induction false} RowsAreRecorded(ops: seq<Op>, key: Key, to: State, sha: Option<Sha>)
    ensures HasRow(RunOps(ops).log, key, to, sha) <==> Recorded(ops, key, to, sha)
    decreases |ops|
  {
    hide HasRow, ApplyOp, Recorded, Records;
    if ops == [] {
      NothingRecorded(key, to, sha);
    } else {
      var front, last := ops[..|ops| - 1], ops[|ops| - 1];
      RowsAreRecorded(front, key, to, sha);
      OpRow(RunOps(front), last, key, to, sha);
      RecordedSnoc(ops, key, to, sha);
    }
  }

  lemma NothingRecorded(key: Key, to: State, sha: Option<Sha>)
    ensures !HasRow(RunOps([]).log, key, to, sha) && !Recorded([], key, to, sha)
  {
  }

  // The whole answer in terms of the run: the table first; a call it forbids is
  // a no-op exactly when an earlier call recorded it at this SHA and the subtask
  // is not in rework; then the failed reviews and send-backs on its log against
  // the caps; then the gate.
  lemma AnswerIff(ops: seq<Op>, c: Call)
    requires UnderCaps(ops, c.caps)
    ensures var db := RunOps(ops);
      var state, path, outcome := Row(db, c.key).state, LogOf(db.log, c.key), Transition(db, c).outcome;
      var known := c.key.task in db.tasks;
      var allowed, barred := known && IsAllowed(state, c.role, c.next), known && !IsAllowed(state, c.role, c.next);
      var again := c.sha.Some? && state !in {NeedsRebase, ReviewFailed, Blocked} && Recorded(ops, c.key, c.next, c.sha);
      var spent := state == ReviewFailed && c.next == InProgress && CountInto(path, ReviewFailed) >= c.caps.review;
      var sentBack := c.next == NeedsRebase && CountInto(path, NeedsRebase) >= c.caps.rebase;
      && (outcome == NoTaskRow <==> !known)
      && (outcome == NoOp <==> barred && again)
      && (outcome == Illegal <==> barred && !again)
      && (outcome == ReviewCapReached <==> allowed && spent)
      && (outcome == RebaseCapReached <==> allowed && sentBack)
      && (outcome.NotEligible? <==> allowed && c.next == MergePending && !GatePasses(db, c.key, c.sha))
      && (outcome == Applied <==>
            allowed && !spent && !sentBack && (c.next == MergePending ==> GatePasses(db, c.key, c.sha)))
  {
    var db := RunOps(ops);
    RunKeepsInv(ops, c.caps);
    RowsAreRecorded(ops, c.key, c.next, c.sha);
    EligibleIffGatePasses(db, c.key, c.sha);
    if c.key.task in db.tasks { EligibleIgnoresRows(db, c.key, c.sha); }
    ReworkRole(Row(db, c.key).state, c.role, c.next);
    hide RunOps, Evaluate, GatePasses, HasRow, Recorded, IsAllowed, LegalPath;
    if c.key in db.subs { assert RowMatches(db.subs[c.key], LogOf(db.log, c.key), c.caps); }
  }

  lemma EligibleIgnoresRows(db: Db, key: Key, sha: Option<Sha>)
    requires key.task in db.tasks
    ensures Evaluate(Ensure(db, key), key, sha) == Evaluate(db, key, sha)
  {
  }

  // ── who gave the verdicts the gate asks for ─────────────────────────────

  predicate RowsAllowed(log: seq<LogRow>) {
    forall i :: 0 <= i < |log| ==> IsAllowed(log[i].from, log[i].role, log[i].to)
  }

  lemma OpKeepsRowsAllowed(db: Db, op: Op)
    requires RowsAllowed(db.log)
    ensures RowsAllowed(ApplyOp(db, op).log)
  {
    hide IsAllowed, Evaluate, HasRow, Promoted;
  }

  lemma {:induction false} EveryRowAllowed(ops: seq<Op>)
    ensures RowsAllowed(RunOps(ops).log)
    decreases |ops|
  {
    if ops != [] {
      EveryRowAllowed(ops[..|ops| - 1]);
      OpKeepsRowsAllowed(RunOps(ops[..|ops| - 1]), ops[|ops| - 1]);
    }
  }

  // The step that gives a leg's verdict, by the role whose verdict it is.
  predicate Gives(r: LogRow, leg: string) {
    || (leg == "verify" && Enters(r, VerifyPending, Coder, ReviewPending))
    || (leg == "review" && Enters(r, ReviewPending, Reviewer, ReviewPassed))
    || (leg == "verify_acceptance" && Enters(r, ReviewPassed, Verifier, AcceptancePassed))
  }

  predicate Given(log: seq<LogRow>, key: Key, leg: string, head: Option<Sha>) {
    exists i :: 0 <= i < |log| && log[i].key == key && log[i].sha == head && Gives(log[i], leg)
  }

  lemma PassedIsGiven(log: seq<LogRow>, key: Key, leg: string, head: Option<Sha>)
    requires RowsAllowed(log)
    ensures LegPassedAt(log, key, head, leg) <==> Given(log, key, leg, head)
  {
    if LegPassedAt(log, key, head, leg) {
      var i :| 0 <= i < |log| && log[i].key == key && log[i].to == PassState(leg).value && log[i].sha == head;
      EveryWayIn(log[i].from, log[i].role, log[i].to);
      assert Gives(log[i], leg);
    }
    if Given(log, key, leg, head) {
      var i :| 0 <= i < |log| && log[i].key == key && log[i].sha == head && Gives(log[i], leg);
      assert HasRow(log, key, log[i].to, head);
    }
  }

  // The gate in every reachable store: open exactly for a known task that either
  // asks for no verdict explicitly, or whose verdicts - verify and review, when
  // it has no snapshot - were each given at this head by the role they belong to.
  lemma GateMeans(ops: seq<Op>, key: Key, head: Option<Sha>)
    ensures var db := RunOps(ops);
      GatePasses(db, key, head) <==>
        && key.task in db.tasks
        && var required := db.tasks[key.task].required;
           || required == Some([])
           || (head.Some? && head.value != ""
               && forall leg <- (if required.None? then ["verify", "review"] else required.value) ::
                    Given(db.log, key, leg, head))
  {
    var db := RunOps(ops);
    EveryRowAllowed(ops);
    forall leg: string
      ensures LegPassedAt(db.log, key, head, leg) <==> Given(db.log, key, leg, head)
    {
      PassedIsGiven(db.log, key, leg, head);
    }
    hide RunOps, LegPassedAt, Given, RowsAllowed;
  }

  // ── the rest of the row ─────────────────────────────────────────────────

  // What the run last wrote to a subtask it had a row for.
  datatype Marks = Marks(pr: Option<int>, attempts: nat, approved: Option<Sha>, requested: Option<Sha>)

  function Marked(m: Marks, op: Op, key: Key): Marks {
    match op
    case DoSetPr(k, pr) => if k == key then m.(pr := Some(pr)) else m
    case DoBump(k) => if k == key then m.(attempts := m.attempts + 1) else m
    case DoMark(k, sha) => if k == key then m.(requested := sha) else m
    case DoGrant(k, sha) => if k == key then m.(approved := Some(sha)) else m
    case _ => m
  }

  function LastMarks(ops: seq<Op>, key: Key): Marks {
    if ops == [] then Marks(None, 0, None, None)
    else
      var front, last := ops[..|ops| - 1], ops[|ops| - 1];
      if key in RunOps(front).subs then Marked(LastMarks(front, key), last, key) else LastMarks(front, key)
  }

  function MarksOf(row: SubtaskRow): Marks {
    Marks(row.pr, row.verifyAttempts, row.approved, row.requested)
  }

  lemma OpMarks(db: Db, op: Op, key: Key)
    ensures MarksOf(Row(ApplyOp(db, op), key)) ==
      if key in db.subs then Marked(MarksOf(db.subs[key]), op, key) else MarksOf(FRESH_ROW)
    ensures key in db.subs ==> key in ApplyOp(db, op).subs
  {
    if op.DoTransition? {
      TransitionMarks(db, op.call, key);
      hide Transition;
    }
  }

  lemma TransitionMarks(db: Db, c: Call, key: Key)
    ensures MarksOf(Row(Transition(db, c).db, key)) == MarksOf(Row(db, key))
    ensures key in db.subs ==> key in Transition(db, c).db.subs
  {
    hide Decide, Promoted;
  }

  // A binding, an attempt count, a grant and a request are those last written
  // since the row was there; no transition touches them.
  lemma {:induction false} MarksAreLastWritten(ops: seq<Op>, key: Key)
    ensures MarksOf(Row(RunOps(ops), key)) == LastMarks(ops, key)
    ensures key !in RunOps(ops).subs ==> LastMarks(ops, key) == Marks(None, 0, None, None)
    decreases |ops|
  {
    if ops != [] {
      MarksAreLastWritten(ops[..|ops| - 1], key);
      OpMarks(RunOps(ops[..|ops| - 1]), ops[|ops| - 1], key);
      hide ApplyOp, Marked;
    }
  }

  // At the default caps: three send-backs, and six failed reviews and one for
  // each resume.
  lemma AtDefaultCaps(ops: seq<Op>, key: Key)
    requires UnderCaps(ops, DEFAULT_CAPS) && key in RunOps(ops).subs
    ensures RunOps(ops).subs[key].rebaseRounds <= 3
    ensures RunOps(ops).subs[key].reviewRound <= 6 + Resumes(LogOf(RunOps(ops).log, key))
  {
    CountersAreCapped(ops, DEFAULT_CAPS, key);
    hide RunOps;
  }

  // ── the audit trail ─────────────────────────────────────────────────────

  function AuditedBy(op: Op): seq<AuditRow> {
    match op
    case DoSetPr(key, pr) => [PrBinding(key, pr)]
    case DoMark(key, sha) => [ApprovalRequest(key, sha)]
    case DoGrant(key, sha) => [ApprovalGrant(key, sha)]
    case DoAudit(row) => [row]
    case _ => []
  }

  function AuditOf(ops: seq<Op>): seq<AuditRow> {
    if ops == [] then [] else AuditOf(ops[..|ops| - 1]) + AuditedBy(ops[|ops| - 1])
  }

  lemma OpAudits(db: Db, op: Op)
    ensures ApplyOp(db, op).audit == db.audit + AuditedBy(op)
  {
    if op.DoTransition? { TransitionIsLocal(db, op.call); }
    hide Transition;
  }

  // Every binding, request and grant leaves its event, in order, whether or not
  // there was a row to write it to; nothing else does.
  lemma {:induction false} AuditIsComplete(ops: seq<Op>)
    ensures RunOps(ops).audit == AuditOf(ops)
    decreases |ops|
  {
    if ops != [] {
      var front, op := ops[..|ops| - 1], ops[|ops| - 1];
      AuditIsComplete(front);
      OpAudits(RunOps(front), op);
      hide ApplyOp, AuditedBy;
    }
  }
}
