/**
 Runs in which every transition comes from one of the program's own legs or the
 watchdog, and every task from a registration. In them no passing record is ever
 unpinned and no snapshot names an unknown leg, so the gate can only refuse for
 verdicts that are missing or stale.
 */
module LegRuns {
  import opened Basics
  import opened Fsm
  import opened Gate
  import opened History
  import M = MergeLeg
  import H = Handoff
  import I = Interleaving
  import R = Registration
  import S = StallPatrol

  // Where a transition call can come from.
  datatype Source =
    | FromWalk(row: SubtaskRow, key: Key, cfg: H.Config, i: nat)
    | FromAttemptCap(key: Key, cfg: H.Config)
    | FromVerify(key: Key, sight: H.Sight)
    | FromReview(key: Key, head: Option<Sha>, approve: bool)
    | FromAcceptance(key: Key, head: Option<Sha>, accept: bool)
    | FromResume(key: Key)
    | FromAbandon(key: Key)
    | FromMerge(args: M.Args, leg: M.Leg)
    | FromDriftPatrol(key: Key)
    | FromStallPatrol(key: Key)

  // The call issued, if the leg gets as far as issuing one.
  function Issued(s: Source): Option<Call> {
    match s
    case FromWalk(row, key, cfg, i) =>
      if i < |H.WalkCalls(row, key, cfg)| then Some(H.WalkCalls(row, key, cfg)[i]) else None
    case FromAttemptCap(key, cfg) => Some(H.CoderCall(key, Blocked, cfg))
    case FromVerify(key, sight) =>
      if H.Gates(sight).Passes? then Some(H.Submit(key, H.Gates(sight).head)) else None
    case FromReview(key, head, approve) =>
      var verdict := if approve then ReviewPassed else ReviewFailed;
      if Pinned(head) then Some(H.Verdict(key, verdict, Reviewer, head)) else None
    case FromAcceptance(key, head, accept) =>
      var verdict := if accept then AcceptancePassed else ReviewFailed;
      if Pinned(head) then Some(H.Verdict(key, verdict, Verifier, head)) else None
    case FromResume(key) => Some(Call(key, InProgress, Conductor, DEFAULT_CAPS, None))
    case FromAbandon(key) => Some(Call(key, Abandoned, Conductor, DEFAULT_CAPS, None))
    case FromMerge(args, leg) => I.CallOfLeg(args, leg)
    case FromDriftPatrol(key) => Some(S.DriftCall(key))
    case FromStallPatrol(key) => Some(S.BlockCall(key))
  }

  predicate PassingState(s: State) {
    s == ReviewPending || s == ReviewPassed || s == AcceptancePassed
  }

  // No leg ever records a passing verdict without the commit it is about.
  lemma PassesArePinned(s: Source)
    requires Issued(s).Some? && PassingState(Issued(s).value.next)
    ensures Pinned(Issued(s).value.sha)
    ensures s.FromVerify? || s.FromReview? || s.FromAcceptance?
  {
    if s.FromVerify? {
      H.PassingPinsThePrHead(s.sight, H.Gates(s.sight).head);
    }
  }

  datatype Step =
    | Issue(source: Source)
    | Statement(op: Op)
    | Register(request: R.Request, prior: Option<string>)

  // Statements are the store's other writers; rows of `tasks` only come from
  // registrations.
  predicate Admissible(s: Step) {
    match s
    case Issue(_) => true
    case Statement(op) => !op.DoTransition? && !op.DoRegister?
    case Register(r, _) => R.Validate(r).Ok?
  }

  function ApplyStep(db: Db, s: Step): Db
    requires Admissible(s)
  {
    match s
    case Issue(src) => if Issued(src).Some? then Transition(db, Issued(src).value).db else db
    case Statement(op) => ApplyOp(db, op)
    case Register(r, prior) => db.(tasks := R.WriteRows(db.tasks, r.room, R.Validate(r).value, prior))
  }

  function RunSteps(steps: seq<Step>): Db
    requires forall s <- steps :: Admissible(s)
  {
    if steps == [] then EMPTY else ApplyStep(RunSteps(steps[..|steps| - 1]), steps[|steps| - 1])
  }

  predicate PinnedLog(log: seq<LogRow>) {
    forall i :: 0 <= i < |log| && PassingState(log[i].to) ==> Pinned(log[i].sha)
  }

  predicate KnownSnapshots(tasks: map<string, TaskRow>) {
    forall t :: t in tasks ==> forall leg <- RequiredLegs(tasks[t]) :: leg in KNOWN_LEGS
  }

  lemma TransitionKeepsPinned(db: Db, c: Call)
    requires PinnedLog(db.log) && KnownSnapshots(db.tasks)
    requires PassingState(c.next) ==> Pinned(c.sha)
    ensures PinnedLog(Transition(db, c).db.log) && KnownSnapshots(Transition(db, c).db.tasks)
  {
    hide Decide, AllMerged;
  }

  lemma StepKeepsPinned(db: Db, s: Step)
    requires Admissible(s) && PinnedLog(db.log) && KnownSnapshots(db.tasks)
    ensures PinnedLog(ApplyStep(db, s).log) && KnownSnapshots(ApplyStep(db, s).tasks)
  {
    match s
    case Issue(src) =>
      if Issued(src).Some? {
        if PassingState(Issued(src).value.next) { PassesArePinned(src); }
        TransitionKeepsPinned(db, Issued(src).value);
        hide Transition;
      }
    case Statement(_) =>
    case Register(r, prior) =>
      R.ResolvesIffExecutable(r.agents);
  }

  lemma {:induction false} RunKeepsPinned(steps: seq<Step>)
    requires forall s <- steps :: Admissible(s)
    ensures PinnedLog(RunSteps(steps).log) && KnownSnapshots(RunSteps(steps).tasks)
  {
    hide ApplyStep;
    if steps != [] {
      RunKeepsPinned(steps[..|steps| - 1]);
      StepKeepsPinned(RunSteps(steps[..|steps| - 1]), steps[|steps| - 1]);
    }
  }

  lemma {:induction false} ReasonsAreMissingOrStale(log: seq<LogRow>, key: Key, head: Option<Sha>, legs: seq<string>)
    requires PinnedLog(log) && forall leg <- legs :: leg in KNOWN_LEGS
    ensures forall r <- LegReasons(log, key, head, legs) :: r.MissingVerdict? || r.StaleVerdict?
  {
    if legs != [] {
      var front, last := legs[..|legs| - 1], legs[|legs| - 1];
      ReasonsAreMissingOrStale(log, key, head, front);
      assert last in legs;
      if HasRowInto(log, key, PassState(last).value) {
        var i :| 0 <= i < |log| && log[i].key == key && log[i].to == PassState(last).value;
        assert PassingState(log[i].to) && log[i].sha.Some?;
        assert HasPinnedRowInto(log, key, PassState(last).value);
      }
    }
  }

  // In every such run the gate never refuses a registered task for an unpinned
  // or an unknown verdict.
  lemma GateSeesOnlyPinned(steps: seq<Step>, key: Key, head: Option<Sha>)
    requires forall s <- steps :: Admissible(s)
    requires key.task in RunSteps(steps).tasks
    ensures forall r <- Evaluate(RunSteps(steps), key, head).reasons ::
              !r.UnpinnedVerdict? && !r.UnknownVerdict? && !r.UnknownTask?
  {
    RunKeepsPinned(steps);
    var db := RunSteps(steps);
    ReasonsAreMissingOrStale(db.log, key, head, RequiredLegs(db.tasks[key.task]));
  }
}
