/**
 The per-subtask state machine (state/fsm.py): states, roles, the transition
 table, the SHA-pinned merge gate and the one mutation path over the durable
 record (tasks, subtask rows, append-only log, append-only audit trail).
 */
module Fsm {
  import opened Basics

  datatype State =
    | Planned | Assigned | InProgress | VerifyPending | ReviewPending
    | ReviewPassed | ReviewFailed | AcceptancePassed | MergePending
    | Merged | NeedsRebase | Blocked | Abandoned

  datatype Role = Conductor | Coder | Reviewer | Verifier | Mergemaster | Watchdog

  type Sha = string

  // Subtask ids are only unique within a task, so every row is keyed by both.
  datatype Key = Key(task: string, subtask: string)

  datatype Status = Active | Superseded | Completed

  // `required == None` is the NULL snapshot of a row older than snapshots.
  datatype TaskRow = TaskRow(
    description: string, status: Status, owner: string,
    required: Option<seq<string>>, approver: Option<string>)

  datatype SubtaskRow = SubtaskRow(
    state: State, pr: Option<int>,
    reviewRound: nat, rebaseRounds: nat, verifyAttempts: nat,
    approved: Option<Sha>, requested: Option<Sha>)

  datatype LogRow = LogRow(key: Key, from: State, to: State, role: Role, sha: Option<Sha>)

  datatype AuditRow =
    | PrBinding(key: Key, pr: int)
    | ApprovalRequest(key: Key, requestedSha: Option<Sha>)
    | ApprovalGrant(key: Key, grantedSha: Sha)
    | UngatedExternalMerge(key: Key, pr: int, mergedSha: Option<Sha>, grant: Option<Sha>)

  datatype Db = Db(
    tasks: map<string, TaskRow>, subs: map<Key, SubtaskRow>,
    log: seq<LogRow>, audit: seq<AuditRow>)

  const FRESH_ROW := SubtaskRow(Planned, None, 0, 0, 0, None, None)

  const MAX_REVIEW_ROUNDS: nat := 6
  const MAX_REBASE_ROUNDS: nat := 3

  // ── the transition table ────────────────────────────────────────────────

  predicate Terminal(s: State) {
    s == Merged || s == Abandoned
  }

  // VALID_TRANSITIONS: the targets a role may move a subtask to.
  function Targets(from: State, role: Role): set<State> {
    match (from, role)
    case (Planned, Conductor) => {Assigned}
    case (Assigned, Coder) => {InProgress}
    case (InProgress, Coder) => {VerifyPending, Blocked}
    case (VerifyPending, Coder) => {ReviewPending, Blocked}
    case (ReviewPending, Reviewer) => {ReviewPassed, ReviewFailed}
    case (ReviewFailed, Coder) => {InProgress, Blocked}
    case (ReviewPassed, Mergemaster) => {MergePending, NeedsRebase, Blocked}
    case (ReviewPassed, Verifier) => {AcceptancePassed, ReviewFailed}
    case (AcceptancePassed, Mergemaster) => {MergePending, NeedsRebase, Blocked}
    case (MergePending, Mergemaster) => {Merged, NeedsRebase, Blocked}
    case (NeedsRebase, Coder) => {InProgress}
    case (Blocked, Conductor) => {InProgress}
    case _ => {}
  }

  // The table plus the two wildcards: the Conductor may abandon and the
  // Watchdog may block any subtask that is not terminal.
  predicate IsAllowed(current: State, role: Role, next: State) {
    !Terminal(current) &&
    ( (next == Abandoned && role == Conductor)
      || (next == Blocked && role == Watchdog)
      || next in Targets(current, role))
  }

  function StateToRoles(s: State): set<Role> {
    set role: Role | Targets(s, role) != {}
  }

  // ── the merge-eligibility gate ──────────────────────────────────────────

  const KNOWN_LEGS := {"verify", "review", "verify_acceptance"}
  const DEFAULT_REQUIRED := ["verify", "review"]

  // The state whose entry records a pass of the leg; None for an unknown leg.
  function PassState(leg: string): Option<State> {
    if leg == "verify" then Some(ReviewPending)
    else if leg == "review" then Some(ReviewPassed)
    else if leg == "verify_acceptance" then Some(AcceptancePassed)
    else None
  }

  datatype Reason =
    | UnknownTask | UngatedMerge | NoHeadSha
    | UnknownVerdict(leg: string) | StaleVerdict(leg: string)
    | UnpinnedVerdict(leg: string) | MissingVerdict(leg: string)

  datatype Eligibility = Eligibility(eligible: bool, reasons: seq<Reason>)

  function RequiredLegs(t: TaskRow): seq<string> {
    match t.required
    case None => DEFAULT_REQUIRED
    case Some(legs) => legs
  }

  // `not head_sha`: absent or empty.
  predicate Pinned(head: Option<Sha>) {
    head.Some? && head.value != ""
  }

  // Some row of this subtask entered `to`, pinned to exactly `head`.
  predicate HasRow(log: seq<LogRow>, key: Key, to: State, head: Option<Sha>) {
    exists i :: 0 <= i < |log| && log[i].key == key && log[i].to == to && log[i].sha == head
  }

  predicate HasRowInto(log: seq<LogRow>, key: Key, to: State) {
    exists i :: 0 <= i < |log| && log[i].key == key && log[i].to == to
  }

  predicate HasPinnedRowInto(log: seq<LogRow>, key: Key, to: State) {
    exists i :: 0 <= i < |log| && log[i].key == key && log[i].to == to && log[i].sha.Some?
  }

  // What one leg contributes: nothing when it passed at `head`, else a reason.
  function LegReason(log: seq<LogRow>, key: Key, head: Option<Sha>, leg: string): seq<Reason> {
    match PassState(leg)
    case None => [UnknownVerdict(leg)]
    case Some(pass) =>
      if HasRow(log, key, pass, head) then []
      else if HasPinnedRowInto(log, key, pass) then [StaleVerdict(leg)]
      else if HasRowInto(log, key, pass) then [UnpinnedVerdict(leg)]
      else [MissingVerdict(leg)]
  }

  function LegReasons(log: seq<LogRow>, key: Key, head: Option<Sha>, legs: seq<string>): seq<Reason> {
    if legs == [] then []
    else LegReasons(log, key, head, legs[..|legs| - 1]) + LegReason(log, key, head, legs[|legs| - 1])
  }

  function Evaluate(db: Db, key: Key, head: Option<Sha>): Eligibility {
    if key.task !in db.tasks then Eligibility(false, [UnknownTask])
    else
      var legs := RequiredLegs(db.tasks[key.task]);
      if legs == [] then Eligibility(true, [UngatedMerge])
      else if !Pinned(head) then Eligibility(false, [NoHeadSha])
      else
        var reasons := LegReasons(db.log, key, head, legs);
        Eligibility(reasons == [], reasons)
  }

  // The gate as the design states it, independent of how reasons are built.
  predicate LegPassedAt(log: seq<LogRow>, key: Key, head: Option<Sha>, leg: string) {
    PassState(leg).Some? && HasRow(log, key, PassState(leg).value, head)
  }

  predicate GatePasses(db: Db, key: Key, head: Option<Sha>) {
    key.task in db.tasks &&
    var legs := RequiredLegs(db.tasks[key.task]);
    legs == [] || (Pinned(head) && forall leg <- legs :: LegPassedAt(db.log, key, head, leg))
  }

  // ── the one mutation path ───────────────────────────────────────────────

  datatype Caps = Caps(review: nat, rebase: nat)

  const DEFAULT_CAPS := Caps(MAX_REVIEW_ROUNDS, MAX_REBASE_ROUNDS)

  datatype Call = Call(key: Key, next: State, role: Role, caps: Caps, sha: Option<Sha>)

  datatype Outcome =
    | Applied
    | NoOp                       // already recorded at this SHA
    | Illegal                    // (state, role) does not allow the target
    | ReviewCapReached
    | RebaseCapReached
    | NotEligible(reasons: seq<Reason>)
    | NoTaskRow                  // the row's foreign key has no task

  datatype Result = Result(outcome: Outcome, db: Db)

  predicate ReworkState(s: State) {
    s == NeedsRebase || s == ReviewFailed || s == Blocked
  }

  // ensure_subtask: its own committed statement, INSERT OR IGNORE.
  function Ensure(db: Db, key: Key): Db
    requires key.task in db.tasks
  {
    if key in db.subs then db else db.(subs := db.subs[key := FRESH_ROW])
  }

  // The verdict of the checks inside the exclusive transaction.
  function Decide(db: Db, c: Call): Outcome
    requires c.key in db.subs
  {
    var row := db.subs[c.key];
    if !IsAllowed(row.state, c.role, c.next) then
      if c.sha.Some? && !ReworkState(row.state) && HasRow(db.log, c.key, c.next, c.sha)
      then NoOp else Illegal
    else if row.state == ReviewFailed && c.role == Coder && c.next == InProgress
            && row.reviewRound >= c.caps.review then ReviewCapReached
    else if c.next == NeedsRebase && row.rebaseRounds >= c.caps.rebase then RebaseCapReached
    else if c.next == MergePending && !Evaluate(db, c.key, c.sha).eligible then
      NotEligible(Evaluate(db, c.key, c.sha).reasons)
    else Applied
  }

  function Moved(row: SubtaskRow, next: State): SubtaskRow {
    row.(state := next,
         reviewRound := if next == ReviewFailed then row.reviewRound + 1 else row.reviewRound,
         rebaseRounds := if next == NeedsRebase then row.rebaseRounds + 1 else row.rebaseRounds)
  }

  predicate AllMerged(subs: map<Key, SubtaskRow>, task: string) {
    forall k :: k in subs && k.task == task ==> subs[k].state == Merged
  }

  function Promoted(tasks: map<string, TaskRow>, subs: map<Key, SubtaskRow>, task: string): map<string, TaskRow> {
    if task in tasks && tasks[task].status == Active && AllMerged(subs, task)
    then tasks[task := tasks[task].(status := Completed)]
    else tasks
  }

  function Write(db: Db, c: Call): Db
    requires c.key in db.subs
  {
    var row := db.subs[c.key];
    var subs := db.subs[c.key := Moved(row, c.next)];
    Db(if c.next == Merged then Promoted(db.tasks, subs, c.key.task) else db.tasks,
       subs,
       db.log + [LogRow(c.key, row.state, c.next, c.role, c.sha)],
       db.audit)
  }

  function Transition(db: Db, c: Call): Result {
    if c.key.task !in db.tasks then Result(NoTaskRow, db)
    else
      var ready := Ensure(db, c.key);
      var outcome := Decide(ready, c);
      Result(outcome, if outcome == Applied then Write(ready, c) else ready)
  }

  // ── the remaining single-statement writers of the store ─────────────────

  function UpdateRow(db: Db, key: Key, row: SubtaskRow, audit: seq<AuditRow>): Db {
    db.(subs := if key in db.subs then db.subs[key := row] else db.subs,
        audit := db.audit + audit)
  }

  function Row(db: Db, key: Key): SubtaskRow {
    if key in db.subs then db.subs[key] else FRESH_ROW
  }

  function SetPr(db: Db, key: Key, pr: int): Db {
    UpdateRow(db, key, Row(db, key).(pr := Some(pr)), [PrBinding(key, pr)])
  }

  function BumpAttempts(db: Db, key: Key): Db {
    var row := Row(db, key);
    UpdateRow(db, key, row.(verifyAttempts := row.verifyAttempts + 1), [])
  }

  function MarkRequested(db: Db, key: Key, sha: Option<Sha>): Db {
    UpdateRow(db, key, Row(db, key).(requested := sha), [ApprovalRequest(key, sha)])
  }

  function RecordGrant(db: Db, key: Key, sha: Sha): Db {
    UpdateRow(db, key, Row(db, key).(approved := Some(sha)), [ApprovalGrant(key, sha)])
  }

  function AppendAudit(db: Db, row: AuditRow): Db {
    db.(audit := db.audit + [row])
  }

  // The head_sha of the newest row into merge_pending (NULL reads as None).
  function PendingSha(log: seq<LogRow>, key: Key): Option<Sha> {
    if log == [] then None
    else
      var last := log[|log| - 1];
      if last.key == key && last.to == MergePending then last.sha
      else PendingSha(log[..|log| - 1], key)
  }
}
