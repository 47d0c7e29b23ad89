/**
 `cb-phase merge` (cli/merge.py) as a machine. One step is one action that other
 processes can get between: a read or write of the store, a query of the pull
 request, a send, or the merge itself. What the invocation remembers between
 actions is in the constructor's fields.
 */
module MergeLeg {
  import opened Basics
  import opened Fsm
  import opened Gate

  datatype PrState = Open | Closed | PrMerged
  datatype Mergeability = Mergeable | Conflicting | Unknown
  datatype Pr = Pr(state: PrState, head: Option<Sha>, mergeability: Mergeability)

  // `rebaseCap` is the configured cap, read live by the leg.
  datatype Args = Args(key: Key, pr: Option<int>, rebaseCap: nat)

  datatype Exit =
    | NoActiveTask | AlreadyMerged | BadEntryState | NoPrNumber | PrRebind
    | PrQueryFailed | Reconciled | UngatedExternal | NotEligibleExit
    | StaleVerdicts | TransitionRejected | ShaMoved | PrNotOpen
    | AwaitingSent | AwaitingAlready | AwaitingSendFailed | Conflicted
    | MergedNow | MergedAfterFailure | MergeFailed | RebaseCapExit

  datatype Leg =
    | Start
    | Bind(pr: int, row: SubtaskRow)
    | Look(pr: int, row: SubtaskRow)
    | ReportUngated(pr: int, seen: Option<Sha>, grant: Option<Sha>)
    | Enqueue(pr: int, snap: Pr)
    | ReadQueue(pr: int, snap: Pr)
    | ReadGrant(pr: int, snap: Pr, pending: Option<Sha>)
    | Send(pr: int, snap: Pr, pending: Option<Sha>)
    | Mark(pending: Option<Sha>)
    | Execute(pr: int, snap: Pr, pinned: Sha)
    | Resnap(pr: int, pinned: Sha, conflictText: bool)
    | Record(sha: Option<Sha>, granted: Sha, exit: Exit)
    | SendBackRead(exit: Exit)
    | SendBack(exit: Exit)
    | CapBlock
    | Block(exit: Exit)
    | Done(exit: Exit)

  // What the outside world answers to one action.
  datatype Obs =
    | Quiet
    | Saw(snap: Option<Pr>)
    | Sent(ok: bool)
    | GhOk
    | GhFailed(conflictText: bool)

  predicate Fits(leg: Leg, obs: Obs) {
    match leg
    case Look(_, _) => obs.Saw?
    case Resnap(_, _, _) => obs.Saw?
    case Send(_, _, _) => obs.Sent?
    case Execute(_, _, _) => obs.GhOk? || obs.GhFailed?
    case _ => obs.Quiet?
  }

  // `headRefOid or None`
  function Head(snap: Pr): Option<Sha> {
    if Pinned(snap.head) then snap.head else None
  }

  predicate EntryState(s: State) {
    s == ReviewPassed || s == AcceptancePassed || s == MergePending
  }

  function Begin(db: Db, args: Args): Leg {
    if args.key.task !in db.tasks then Done(NoActiveTask)
    else
      var row := Row(db, args.key);
      if row.state == Merged then Done(AlreadyMerged)
      else if !EntryState(row.state) then Done(BadEntryState)
      else if args.pr.None? && row.pr.None? then Done(NoPrNumber)
      else if args.pr.None? then Look(row.pr.value, row)
      else if row.pr.None? then Bind(args.pr.value, row)
      else if row.pr != args.pr then Done(PrRebind)
      else Look(args.pr.value, row)
  }

  function AfterLook(pr: int, row: SubtaskRow, seen: Option<Pr>): Leg {
    match seen
    case None => Done(PrQueryFailed)
    case Some(snap) =>
      if row.state != MergePending then Enqueue(pr, snap)
      else if snap.state != PrMerged then ReadQueue(pr, snap)
      else if row.approved.Some? && row.approved == Head(snap)
        then Record(Head(snap), row.approved.value, Reconciled)
      else ReportUngated(pr, Head(snap), row.approved)
  }

  function AfterEnqueue(pr: int, snap: Pr, outcome: Outcome): Leg {
    match outcome
    case Applied => ReadQueue(pr, snap)
    case NoOp => ReadQueue(pr, snap)
    case NotEligible(reasons) =>
      if ShaShaped(reasons) then SendBackRead(StaleVerdicts) else Done(NotEligibleExit)
    case _ => Done(TransitionRejected)
  }

  function AfterReadQueue(pr: int, snap: Pr, pending: Option<Sha>): Leg {
    if pending.Some? && Head(snap) != pending then SendBackRead(ShaMoved)
    else if snap.state != Open then Block(PrNotOpen)
    else ReadGrant(pr, snap, pending)
  }

  function AfterReadGrant(pr: int, snap: Pr, pending: Option<Sha>, row: SubtaskRow): Leg {
    if row.approved.Some? && pending.Some? && row.approved == pending then
      if snap.mergeability == Conflicting then SendBackRead(Conflicted)
      else Execute(pr, snap, pending.value)
    else if row.requested == pending then Done(AwaitingAlready)
    else Send(pr, snap, pending)
  }

  function AfterResnap(pending: Sha, conflictText: bool, seen: Option<Pr>): Leg {
    match seen
    case None => Done(PrQueryFailed)
    case Some(snap) =>
      if snap.state == PrMerged then Record(Head(snap), pending, MergedAfterFailure)
      else if Head(snap) != Some(pending) then SendBackRead(ShaMoved)
      else if snap.mergeability == Conflicting || conflictText then SendBackRead(Conflicted)
      else Block(MergeFailed)
  }

  // _transition_or_fail: an already-recorded transition counts as done.
  function AfterWrite(outcome: Outcome, exit: Exit): Leg {
    Done(if outcome == Applied || outcome == NoOp then exit else TransitionRejected)
  }

  function MergemasterCall(args: Args, next: State, sha: Option<Sha>): Call {
    Call(args.key, next, Mergemaster, DEFAULT_CAPS, sha)
  }

  function SendBackCall(args: Args): Call {
    Call(args.key, NeedsRebase, Mergemaster, Caps(MAX_REVIEW_ROUNDS, args.rebaseCap), None)
  }

  datatype StepResult = StepResult(db: Db, leg: Leg)

  function WriteStep(db: Db, call: Call, exit: Exit): StepResult {
    var r := Transition(db, call);
    StepResult(r.db, AfterWrite(r.outcome, exit))
  }

  // One atomic action of an invocation.
  function LegStep(db: Db, args: Args, leg: Leg, obs: Obs): StepResult
    requires Fits(leg, obs)
  {
    match leg
    case Start => StepResult(db, Begin(db, args))
    case Bind(pr, row) => StepResult(SetPr(db, args.key, pr), Look(pr, row))
    case Look(pr, row) => StepResult(db, AfterLook(pr, row, obs.snap))
    case ReportUngated(pr, seen, grant) =>
      StepResult(AppendAudit(db, UngatedExternalMerge(args.key, pr, seen, grant)), Block(UngatedExternal))
    case Enqueue(pr, snap) =>
      var r := Transition(db, MergemasterCall(args, MergePending, Head(snap)));
      StepResult(r.db, AfterEnqueue(pr, snap, r.outcome))
    case ReadQueue(pr, snap) =>
      StepResult(db, AfterReadQueue(pr, snap, PendingSha(db.log, args.key)))
    case ReadGrant(pr, snap, pending) =>
      StepResult(db, AfterReadGrant(pr, snap, pending, Row(db, args.key)))
    case Send(_, _, pending) =>
      StepResult(db, if obs.ok then Mark(pending) else Done(AwaitingSendFailed))
    case Mark(pending) =>
      StepResult(MarkRequested(db, args.key, pending), Done(AwaitingSent))
    case Execute(pr, snap, pending) =>
      StepResult(db, if obs.GhOk? then Record(Head(snap), pending, MergedNow)
                     else Resnap(pr, pending, obs.conflictText))
    case Resnap(_, pending, conflictText) =>
      StepResult(db, AfterResnap(pending, conflictText, obs.snap))
    case Record(sha, _, exit) => WriteStep(db, MergemasterCall(args, Merged, sha), exit)
    case SendBackRead(exit) =>
      StepResult(db, if Row(db, args.key).rebaseRounds >= args.rebaseCap then CapBlock else SendBack(exit))
    case SendBack(exit) => WriteStep(db, SendBackCall(args), exit)
    case CapBlock => WriteStep(db, MergemasterCall(args, Blocked, None), RebaseCapExit)
    case Block(exit) => WriteStep(db, MergemasterCall(args, Blocked, None), exit)
    case Done(_) => StepResult(db, leg)
  }

  // Actions still ahead: every step but a finished one goes down.
  function Ahead(leg: Leg): nat {
    match leg
    case Start => 14
    case Bind(_, _) => 13
    case Look(_, _) => 12
    case Enqueue(_, _) => 11
    case ReadQueue(_, _) => 10
    case ReadGrant(_, _, _) => 9
    case Send(_, _, _) => 8
    case Mark(_) => 7
    case Execute(_, _, _) => 6
    case Resnap(_, _, _) => 5
    case ReportUngated(_, _, _) => 5
    case SendBackRead(_) => 4
    case SendBack(_) => 3
    case CapBlock => 3
    case Block(_) => 3
    case Record(_, _, _) => 3
    case Done(_) => 0
  }

  lemma StepGoesAhead(db: Db, args: Args, leg: Leg, obs: Obs)
    requires Fits(leg, obs) && !leg.Done?
    ensures Ahead(LegStep(db, args, leg, obs).leg) < Ahead(leg)
  {
  }

  // ── an undisturbed invocation ───────────────────────────────────────────

  // How `gh pr merge` behaves on an open PR whose head is the pinned commit.
  datatype GhBehaviour =
    | Faithful
    | LandsButReportsFailure(conflictText: bool)
    | Refuses(conflictText: bool)

  datatype Env = Env(prs: map<int, Pr>, reachable: bool, delivers: bool, gh: GhBehaviour)

  function Snapshot(env: Env, pr: int): Option<Pr> {
    if env.reachable && pr in env.prs then Some(env.prs[pr]) else None
  }

  // --match-head-commit: only an open PR at exactly the pinned head can merge.
  predicate CanMerge(env: Env, pr: int, pending: Sha) {
    pr in env.prs && env.prs[pr].state == Open && env.prs[pr].head == Some(pending)
  }

  function Answer(env: Env, leg: Leg): Obs {
    match leg
    case Look(pr, _) => Saw(Snapshot(env, pr))
    case Resnap(pr, _, _) => Saw(Snapshot(env, pr))
    case Send(_, _, _) => Sent(env.delivers)
    case Execute(pr, _, pending) =>
      if !CanMerge(env, pr, pending) then GhFailed(false)
      else (match env.gh
            case Faithful => GhOk
            case LandsButReportsFailure(text) => GhFailed(text)
            case Refuses(text) => GhFailed(text))
    case _ => Quiet
  }

  function AfterAnswer(env: Env, leg: Leg): Env {
    if leg.Execute? && CanMerge(env, leg.pr, leg.pinned) && !env.gh.Refuses?
    then env.(prs := env.prs[leg.pr := env.prs[leg.pr].(state := PrMerged)])
    else env
  }

  datatype Config = Config(db: Db, env: Env, leg: Leg)

  function Next(args: Args, c: Config): Config {
    var r := LegStep(c.db, args, c.leg, Answer(c.env, c.leg));
    Config(r.db, AfterAnswer(c.env, c.leg), r.leg)
  }

  // The configuration after at most `n` actions.
  function After(args: Args, c: Config, n: nat): Config {
    if n == 0 then c else Next(args, After(args, c, n - 1))
  }

  // Run to the end.
  function Finish(args: Args, c: Config): (end: Config)
    ensures end.leg.Done?
    decreases Ahead(c.leg)
  {
    if c.leg.Done? then c
    else
      StepGoesAhead(c.db, args, c.leg, Answer(c.env, c.leg));
      Finish(args, Next(args, c))
  }
}
