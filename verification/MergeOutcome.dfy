/**
 Where an undisturbed `cb-phase merge` leaves a subtask, told from what stood in
 the store and on the pull request when it began.
 */
module MergeOutcome {
  import opened Basics
  import opened Fsm
  import opened Gate
  import opened MergeLeg
  import opened MergeCommand

  function Ends(args: Args, db: Db, env: Env, leg: Leg): (end: Config)
    ensures end.leg.Done?
  {
    Finish(args, Config(db, env, leg))
  }

  // The subtask has this state and nothing else of it changed but the counter
  // that goes with entering it; one log row says so.
  predicate MovedTo(before: Db, after: Db, key: Key, to: State, sha: Option<Sha>)
    requires key in before.subs
  {
    && after.subs == before.subs[key := Moved(before.subs[key], to)]
    && after.log == before.log + [LogRow(key, before.subs[key].state, to, Mergemaster, sha)]
    && after.audit == before.audit
  }

  // ── closing transitions ─────────────────────────────────────────────────

  predicate InEntry(args: Args, db: Db) {
    args.key.task in db.tasks && args.key in db.subs && EntryState(db.subs[args.key].state)
  }

  lemma Closes(args: Args, db: Db, call: Call, exit: Exit)
    requires InEntry(args, db) && call.key == args.key && call.role == Mergemaster
    requires call.next in {NeedsRebase, Blocked} || (call.next == Merged && db.subs[args.key].state == MergePending)
    requires call.next == NeedsRebase ==> db.subs[args.key].rebaseRounds < call.caps.rebase
    ensures var r := WriteStep(db, call, exit);
      r.leg == Done(exit) && MovedTo(db, r.db, args.key, call.next, call.sha)
      && (call.next != Merged ==> r.db.tasks == db.tasks)
  {
    hide AllMerged, Evaluate, HasRow;
  }

  // A send-back goes to needs_rebase below the cap and to blocked at it.
  lemma SentBack(args: Args, db: Db, env: Env, exit: Exit)
    requires InEntry(args, db)
    ensures var end := Ends(args, db, env, SendBackRead(exit));
      && end.env == env && end.db.tasks == db.tasks
      && if db.subs[args.key].rebaseRounds >= args.rebaseCap
         then end.leg == Done(RebaseCapExit) && MovedTo(db, end.db, args.key, Blocked, None)
         else end.leg == Done(exit) && MovedTo(db, end.db, args.key, NeedsRebase, None)
  {
    hide Transition, MovedTo;
    var c := Config(db, env, SendBackRead(exit));
    FinishStep(args, c);
    FinishStep(args, Next(args, c));
    if db.subs[args.key].rebaseRounds >= args.rebaseCap {
      Closes(args, db, MergemasterCall(args, Blocked, None), RebaseCapExit);
    } else {
      Closes(args, db, SendBackCall(args), exit);
    }
  }

  lemma IsBlocked(args: Args, db: Db, env: Env, exit: Exit)
    requires InEntry(args, db)
    ensures var end := Ends(args, db, env, Block(exit));
      && end.env == env && end.leg == Done(exit) && MovedTo(db, end.db, args.key, Blocked, None)
  {
    hide Transition, MovedTo;
    FinishStep(args, Config(db, env, Block(exit)));
    Closes(args, db, MergemasterCall(args, Blocked, None), exit);
  }

  lemma IsRecorded(args: Args, db: Db, env: Env, sha: Option<Sha>, granted: Sha, exit: Exit)
    requires InEntry(args, db) && db.subs[args.key].state == MergePending
    ensures var end := Ends(args, db, env, Record(sha, granted, exit));
      && end.env == env && end.leg == Done(exit) && MovedTo(db, end.db, args.key, Merged, sha)
  {
    hide Transition, MovedTo;
    FinishStep(args, Config(db, env, Record(sha, granted, exit)));
    Closes(args, db, MergemasterCall(args, Merged, sha), exit);
  }

  // ── beginning ───────────────────────────────────────────────────────────

  // The row and the arguments name one pull request between them.
  predicate About(args: Args, row: SubtaskRow, pr: int) {
    && (row.pr == Some(pr) || args.pr == Some(pr))
    && (row.pr.None? || row.pr == Some(pr)) && (args.pr.None? || args.pr == Some(pr))
  }

  // The store once the invocation has bound that pull request.
  function BoundDb(args: Args, db: Db, pr: int): Db {
    if Row(db, args.key).pr.None? then SetPr(db, args.key, pr) else db
  }

  // An invocation gets as far as looking at the pull request exactly on a
  // subtask ready to merge whose row and arguments agree on one; any other
  // start writes nothing, and its exit says what was wrong.
  lemma BeginsIff(args: Args, db: Db, env: Env)
    ensures var end, row := Ends(args, db, env, Start), Row(db, args.key);
      var known := args.key.task in db.tasks;
      && (!known ==> end == Config(db, env, Done(NoActiveTask)))
      && (known && row.state == Merged ==> end == Config(db, env, Done(AlreadyMerged)))
      && (known && row.state != Merged && !EntryState(row.state) ==> end == Config(db, env, Done(BadEntryState)))
      && (known && EntryState(row.state) && args.pr.None? && row.pr.None? ==>
            end == Config(db, env, Done(NoPrNumber)))
      && (known && EntryState(row.state) && args.pr.Some? && row.pr.Some? && args.pr != row.pr ==>
            end == Config(db, env, Done(PrRebind)))
      && (forall pr :: known && EntryState(row.state) && About(args, row, pr) ==>
            end == Ends(args, BoundDb(args, db, pr), env, Look(pr, row)))
  {
    hide LegStep, AfterLook;
    var row := Row(db, args.key);
    Starts(args, db, env);
    forall pr | args.key.task in db.tasks && EntryState(row.state) && About(args, row, pr)
      ensures Ends(args, db, env, Start) == Ends(args, BoundDb(args, db, pr), env, Look(pr, row))
    {
      if row.pr.None? { Binds(args, db, env, pr, row); }
    }
  }

  lemma Starts(args: Args, db: Db, env: Env)
    ensures Ends(args, db, env, Start) == Ends(args, db, env, Begin(db, args))
    ensures forall exit :: Ends(args, db, env, Done(exit)) == Config(db, env, Done(exit))
  {
    FinishStep(args, Config(db, env, Start));
  }

  lemma Binds(args: Args, db: Db, env: Env, pr: int, row: SubtaskRow)
    ensures Ends(args, db, env, Bind(pr, row)) == Ends(args, SetPr(db, args.key, pr), env, Look(pr, row))
  {
    FinishStep(args, Config(db, env, Bind(pr, row)));
  }

  // ── the queue edge ──────────────────────────────────────────────────────

  // Each leg the task asks for is known, and passed at some commit or other.
  predicate PassedSomewhere(db: Db, key: Key)
    requires key.task in db.tasks
  {
    forall leg <- RequiredLegs(db.tasks[key.task]) ::
      PassState(leg).Some? && HasRowInto(db.log, key, PassState(leg).value)
  }

  lemma {:induction false} ShapedIff(log: seq<LogRow>, key: Key, head: Option<Sha>, legs: seq<string>)
    ensures (forall r <- LegReasons(log, key, head, legs) :: ShaShapedReason(r))
       <==> forall leg <- legs :: PassState(leg).Some? && HasRowInto(log, key, PassState(leg).value)
  {
    if legs != [] {
      var front, last := legs[..|legs| - 1], legs[|legs| - 1];
      ShapedIff(log, key, head, front);
      LastShaped(log, key, head, last);
      assert legs == front + [last];
      var rest, own := LegReasons(log, key, head, front), LegReason(log, key, head, last);
      assert forall r :: r in rest + own <==> r in rest || r in own;
      assert forall leg :: leg in legs <==> leg in front || leg == last;
      hide LegReason, HasRowInto, PassState;
    }
  }

  lemma LastShaped(log: seq<LogRow>, key: Key, head: Option<Sha>, leg: string)
    ensures (forall r <- LegReason(log, key, head, leg) :: ShaShapedReason(r))
       <==> PassState(leg).Some? && HasRowInto(log, key, PassState(leg).value)
  {
    if PassState(leg).Some? {
      var pass := PassState(leg).value;
      if HasRow(log, key, pass, head) {
        var i :| 0 <= i < |log| && log[i].key == key && log[i].to == pass && log[i].sha == head;
        assert HasRowInto(log, key, pass);
      } else if HasPinnedRowInto(log, key, pass) {
        var i :| 0 <= i < |log| && log[i].key == key && log[i].to == pass && log[i].sha.Some?;
        assert LegReason(log, key, head, leg) == [StaleVerdict(leg)] && HasRowInto(log, key, pass);
      } else if HasRowInto(log, key, pass) {
        assert LegReason(log, key, head, leg) == [UnpinnedVerdict(leg)];
      } else {
        assert LegReason(log, key, head, leg) == [MissingVerdict(leg)];
        assert !ShaShapedReason(MissingVerdict(leg));
      }
    } else {
      assert LegReason(log, key, head, leg) == [UnknownVerdict(leg)];
      assert !ShaShapedReason(UnknownVerdict(leg));
    }
  }

  // A refusal is one that rework at this head cures exactly when there is a head
  // and every leg passed somewhere.
  lemma RefusedShapedIff(db: Db, key: Key, head: Option<Sha>)
    requires key.task in db.tasks && !GatePasses(db, key, head)
    ensures ShaShaped(Evaluate(db, key, head).reasons) <==> Pinned(head) && PassedSomewhere(db, key)
  {
    var legs := RequiredLegs(db.tasks[key.task]);
    ShapedIff(db.log, key, head, legs);
    EligibleIffGatePasses(db, key, head);
    hide LegReasons, HasRowInto, HasRow;
    if !Pinned(head) { assert NoHeadSha in Evaluate(db, key, head).reasons; }
  }

  predicate BeforeQueue(args: Args, db: Db) {
    InEntry(args, db) && db.subs[args.key].state != MergePending
  }

  // What the queue edge comes to: refused, it leaves the store as it was.
  lemma QueueEdge(args: Args, db: Db, head: Option<Sha>)
    requires BeforeQueue(args, db)
    ensures var r := Transition(db, MergemasterCall(args, MergePending, head));
      if GatePasses(db, args.key, head)
      then r.outcome == Applied && r.db.tasks == db.tasks && MovedTo(db, r.db, args.key, MergePending, head)
      else r == Result(NotEligible(Evaluate(db, args.key, head).reasons), db)
  {
    EligibleIffGatePasses(db, args.key, head);
    hide Evaluate, GatePasses, HasRow, AllMerged;
  }

  lemma Enqueues(args: Args, db: Db, env: Env, pr: int, snap: Pr)
    ensures var r := Transition(db, MergemasterCall(args, MergePending, Head(snap)));
      Ends(args, db, env, Enqueue(pr, snap)) == Ends(args, r.db, env, AfterEnqueue(pr, snap, r.outcome))
  {
    hide Transition;
    FinishStep(args, Config(db, env, Enqueue(pr, snap)));
  }

  // A refused subtask is sent back for rework exactly when every leg has passed
  // at some commit - to blocked instead, with the rebase rounds used up. When a
  // verdict was never given it rests where it is.
  lemma RefusedQueueIff(args: Args, db: Db, env: Env, pr: int, snap: Pr)
    requires BeforeQueue(args, db) && !GatePasses(db, args.key, Head(snap))
    ensures var end, spent := Ends(args, db, env, Enqueue(pr, snap)), db.subs[args.key].rebaseRounds >= args.rebaseCap;
      var stale := Pinned(Head(snap)) && PassedSomewhere(db, args.key);
      && end.env == env && end.db.tasks == db.tasks
      && (!stale ==> end.db == db && end.leg == Done(NotEligibleExit))
      && (stale && !spent ==> MovedTo(db, end.db, args.key, NeedsRebase, None) && end.leg == Done(StaleVerdicts))
      && (stale && spent ==> MovedTo(db, end.db, args.key, Blocked, None) && end.leg == Done(RebaseCapExit))
  {
    hide Transition, Finish, ShaShaped, GatePasses, PassedSomewhere, MovedTo, Pinned, Head;
    Enqueues(args, db, env, pr, snap);
    QueueEdge(args, db, Head(snap));
    RefusedShapedIff(db, args.key, Head(snap));
    SentBack(args, db, env, StaleVerdicts);
    Starts(args, db, env);
  }

  // ── a queued subtask ────────────────────────────────────────────────────

  // Granted at the SHA it was queued at.
  predicate Granted(row: SubtaskRow, queued: Option<Sha>) {
    queued.Some? && row.approved == queued
  }

  // The pull request has left the SHA the subtask was queued at.
  predicate HeadLeft(snap: Pr, queued: Option<Sha>) {
    queued.Some? && Head(snap) != queued
  }

  // Nothing stands between the grant and the merge but the pull request itself.
  predicate Cleared(row: SubtaskRow, snap: Pr, queued: Option<Sha>) {
    !HeadLeft(snap, queued) && snap.state == Open && Granted(row, queued)
  }

  predicate Lands(row: SubtaskRow, snap: Pr, queued: Option<Sha>, gh: GhBehaviour) {
    Cleared(row, snap, queued) && snap.mergeability != Conflicting && !gh.Refuses?
  }

  predicate InConflict(snap: Pr, gh: GhBehaviour) {
    snap.mergeability == Conflicting || (gh.Refuses? && gh.conflictText)
  }

  // A queued subtask whose head moved, or whose granted merge meets a conflict.
  predicate NeedsRework(row: SubtaskRow, snap: Pr, queued: Option<Sha>, gh: GhBehaviour) {
    HeadLeft(snap, queued) || (Cleared(row, snap, queued) && InConflict(snap, gh))
  }

  // Closed under a standing queue entry, or refused for no reason rework cures.
  predicate Stuck(row: SubtaskRow, snap: Pr, queued: Option<Sha>, gh: GhBehaviour) {
    || (!HeadLeft(snap, queued) && snap.state != Open)
    || (Cleared(row, snap, queued) && !InConflict(snap, gh) && gh.Refuses?)
  }

  predicate AwaitsGrant(row: SubtaskRow, snap: Pr, queued: Option<Sha>) {
    !HeadLeft(snap, queued) && snap.state == Open && !Granted(row, queued)
  }

  // What a run leaves behind that got a subtask as far as the queue.
  predicate QueueEnd(args: Args, db: Db, env: Env, pr: int, queued: Option<Sha>, end: Config)
    requires args.key in db.subs && pr in env.prs
  {
    var key, row, snap := args.key, db.subs[args.key], env.prs[pr];
    var spent, rework := row.rebaseRounds >= args.rebaseCap, NeedsRework(row, snap, queued, env.gh);
    && (Lands(row, snap, queued, env.gh) ==>
          && MovedTo(db, end.db, key, Merged, queued) && end.env.prs == env.prs[pr := snap.(state := PrMerged)]
          && end.leg == Done(if env.gh.Faithful? then MergedNow else MergedAfterFailure))
    && (!Lands(row, snap, queued, env.gh) ==> end.env == env)
    && (rework && !spent ==>
          && MovedTo(db, end.db, key, NeedsRebase, None)
          && end.leg == Done(if HeadLeft(snap, queued) then ShaMoved else Conflicted))
    && (rework && spent ==> MovedTo(db, end.db, key, Blocked, None) && end.leg == Done(RebaseCapExit))
    && (Stuck(row, snap, queued, env.gh) ==>
          && MovedTo(db, end.db, key, Blocked, None)
          && end.leg == Done(if snap.state == Open then MergeFailed else PrNotOpen))
    && (AwaitsGrant(row, snap, queued) ==>
          && end.db.log == db.log
          && end.db.subs == db.subs[key := if env.delivers then row.(requested := queued) else row]
          && end.leg == Done(if row.requested == queued then AwaitingAlready
                             else if env.delivers then AwaitingSent else AwaitingSendFailed))
  }

  // One of these is always the case, and no two are.
  lemma FatesAreExclusive(row: SubtaskRow, snap: Pr, queued: Option<Sha>, gh: GhBehaviour)
    ensures var lands, rework := Lands(row, snap, queued, gh), NeedsRework(row, snap, queued, gh);
      var stuck, awaits := Stuck(row, snap, queued, gh), AwaitsGrant(row, snap, queued);
      && (lands || rework || stuck || awaits)
      && !(lands && (rework || stuck || awaits)) && !(rework && (stuck || awaits)) && !(stuck && awaits)
  {
  }

  lemma ReadsQueue(args: Args, db: Db, env: Env, pr: int, snap: Pr)
    ensures var queued := PendingSha(db.log, args.key);
      Ends(args, db, env, ReadQueue(pr, snap)) == Ends(args, db, env, AfterReadQueue(pr, snap, queued))
  {
    hide PendingSha, AfterReadQueue;
    FinishStep(args, Config(db, env, ReadQueue(pr, snap)));
  }

  lemma ReadsGrant(args: Args, db: Db, env: Env, pr: int, snap: Pr, queued: Option<Sha>)
    ensures Ends(args, db, env, ReadGrant(pr, snap, queued))
         == Ends(args, db, env, AfterReadGrant(pr, snap, queued, Row(db, args.key)))
  {
    hide AfterReadGrant;
    FinishStep(args, Config(db, env, ReadGrant(pr, snap, queued)));
  }

  lemma Asks(args: Args, db: Db, env: Env, pr: int, snap: Pr, queued: Option<Sha>)
    requires args.key in db.subs
    ensures var end := Ends(args, db, env, Send(pr, snap, queued));
      && end.env == env && end.db.log == db.log
      && if env.delivers
         then end.leg == Done(AwaitingSent)
              && end.db.subs == db.subs[args.key := db.subs[args.key].(requested := queued)]
         else end.leg == Done(AwaitingSendFailed) && end.db == db
  {
    FinishStep(args, Config(db, env, Send(pr, snap, queued)));
    if env.delivers {
      FinishStep(args, Config(db, env, Mark(queued)));
    }
  }

  lemma Waits(args: Args, db: Db, env: Env, pr: int, snap: Pr, queued: Option<Sha>)
    requires args.key in db.subs && !Granted(db.subs[args.key], queued)
    ensures var row, end := db.subs[args.key], Ends(args, db, env, ReadGrant(pr, snap, queued));
      && end.env == env && end.db.log == db.log
      && end.db.subs == db.subs[args.key := if env.delivers then row.(requested := queued) else row]
      && end.leg == Done(if row.requested == queued then AwaitingAlready
                         else if env.delivers then AwaitingSent else AwaitingSendFailed)
  {
    var row := db.subs[args.key];
    assert db.subs[args.key := row] == db.subs;
    ReadsGrant(args, db, env, pr, snap, queued);
    Asks(args, db, env, pr, snap, queued);
    Starts(args, db, env);
    hide Finish;
    if row.requested == queued { assert row.(requested := queued) == row; }
  }

  lemma Executes(args: Args, db: Db, env: Env, pr: int, pinned: Sha)
    requires InEntry(args, db) && db.subs[args.key].state == MergePending
    requires env.reachable && pr in env.prs && Cleared(db.subs[args.key], env.prs[pr], Some(pinned))
    requires env.prs[pr].mergeability != Conflicting
    ensures QueueEnd(args, db, env, pr, Some(pinned), Ends(args, db, env, Execute(pr, env.prs[pr], pinned)))
  {
    hide Transition, MovedTo;
    var snap := env.prs[pr];
    var c := Config(db, env, Execute(pr, snap, pinned));
    FinishStep(args, c);
    assert CanMerge(env, pr, pinned);
    var env1 := AfterAnswer(env, c.leg);
    if env.gh.Faithful? {
      IsRecorded(args, db, env1, Head(snap), pinned, MergedNow);
    } else {
      LooksAgain(args, db, env1, pr, pinned, env.gh.conflictText);
      IsRecorded(args, db, env1, Head(snap), pinned, MergedAfterFailure);
      SentBack(args, db, env, Conflicted);
      IsBlocked(args, db, env, MergeFailed);
    }
    hide Finish;
  }

  lemma LooksAgain(args: Args, db: Db, env: Env, pr: int, pinned: Sha, conflictText: bool)
    requires env.reachable && pr in env.prs
    ensures Ends(args, db, env, Resnap(pr, pinned, conflictText))
         == Ends(args, db, env, AfterResnap(pinned, conflictText, Some(env.prs[pr])))
  {
    hide AfterResnap;
    FinishStep(args, Config(db, env, Resnap(pr, pinned, conflictText)));
  }

  // From the queue on: what becomes of the subtask is decided by the SHA it was
  // queued at, its grant, the pull request and the merge command's answer.
  lemma QueuedFate(args: Args, db: Db, env: Env, pr: int)
    requires InEntry(args, db) && db.subs[args.key].state == MergePending
    requires env.reachable && pr in env.prs
    ensures QueueEnd(args, db, env, pr, PendingSha(db.log, args.key),
                     Ends(args, db, env, ReadQueue(pr, env.prs[pr])))
  {
    hide Ends, MovedTo, Transition;
    var row, snap, queued := db.subs[args.key], env.prs[pr], PendingSha(db.log, args.key);
    ReadsQueue(args, db, env, pr, snap);
    if HeadLeft(snap, queued) {
      SentBack(args, db, env, ShaMoved);
    } else if snap.state != Open {
      IsBlocked(args, db, env, PrNotOpen);
    } else if !Granted(row, queued) {
      Waits(args, db, env, pr, snap, queued);
    } else {
      ReadsGrant(args, db, env, pr, snap, queued);
      if snap.mergeability == Conflicting {
        SentBack(args, db, env, Conflicted);
      } else {
        Executes(args, db, env, pr, queued.value);
      }
    }
  }

  // ── from the beginning ──────────────────────────────────────────────────

  lemma Looks(args: Args, db: Db, env: Env, pr: int, row: SubtaskRow)
    ensures Ends(args, db, env, Look(pr, row)) == Ends(args, db, env, AfterLook(pr, row, Snapshot(env, pr)))
  {
    hide AfterLook;
    FinishStep(args, Config(db, env, Look(pr, row)));
  }

  predicate Reconciles(row: SubtaskRow, snap: Pr) {
    row.approved.Some? && row.approved == Head(snap)
  }

  // A queued subtask whose pull request is found merged: recorded at its grant,
  // and otherwise reported and blocked.
  lemma FoundMerged(args: Args, db: Db, env: Env, pr: int, row: SubtaskRow)
    requires InEntry(args, db) && db.subs[args.key].state == MergePending && row.state == MergePending
    requires env.reachable && pr in env.prs && env.prs[pr].state == PrMerged
    ensures var end, snap := Ends(args, db, env, Look(pr, row)), env.prs[pr];
      var report := AppendAudit(db, UngatedExternalMerge(args.key, pr, Head(snap), row.approved));
      && end.env == env
      && if Reconciles(row, snap)
         then MovedTo(db, end.db, args.key, Merged, Head(snap)) && end.leg == Done(Reconciled)
         else MovedTo(report, end.db, args.key, Blocked, None) && end.leg == Done(UngatedExternal)
  {
    hide Transition, MovedTo;
    var snap := env.prs[pr];
    Looks(args, db, env, pr, row);
    if Reconciles(row, snap) {
      IsRecorded(args, db, env, Head(snap), row.approved.value, Reconciled);
    } else {
      var report := UngatedExternalMerge(args.key, pr, Head(snap), row.approved);
      FinishStep(args, Config(db, env, ReportUngated(pr, Head(snap), row.approved)));
      IsBlocked(args, AppendAudit(db, report), env, UngatedExternal);
    }
  }

  lemma PendingIsHead(before: Db, after: Db, key: Key, sha: Option<Sha>)
    requires key in before.subs && MovedTo(before, after, key, MergePending, sha)
    ensures PendingSha(after.log, key) == sha
  {
    assert after.log[..|after.log| - 1] == before.log;
  }

  // The gate let it in, so it goes on as a subtask queued at this head.
  lemma EntersQueue(args: Args, db: Db, env: Env, pr: int, row: SubtaskRow)
    requires BeforeQueue(args, db) && row.state == db.subs[args.key].state && env.reachable && pr in env.prs
    requires GatePasses(db, args.key, Head(env.prs[pr]))
    ensures var snap := env.prs[pr];
      var q := Transition(db, MergemasterCall(args, MergePending, Head(snap))).db;
      && InEntry(args, q) && MovedTo(db, q, args.key, MergePending, Head(snap))
      && QueueEnd(args, q, env, pr, Head(snap), Ends(args, db, env, Look(pr, row)))
  {
    hide Ends, GatePasses, Transition, QueueEnd, Head, PendingSha;
    var snap := env.prs[pr];
    var q := Transition(db, MergemasterCall(args, MergePending, Head(snap))).db;
    Looks(args, db, env, pr, row);
    Enqueues(args, db, env, pr, snap);
    QueueEdge(args, db, Head(snap));
    PendingIsHead(db, q, args.key, Head(snap));
    QueuedFate(args, q, env, pr);
  }

  // The SHA the subtask is queued at when the invocation is through the gate.
  function QueuedAt(row: SubtaskRow, log: seq<LogRow>, key: Key, snap: Pr): Option<Sha> {
    if row.state == MergePending then PendingSha(log, key) else Head(snap)
  }

  // The whole invocation, read off the store and the pull request it began with:
  // exactly when the subtask ends merged, sent back, blocked, waiting for its
  // grant, or where it was - and exactly when the pull request is merged by it.
  predicate EndsAsTold(args: Args, db: Db, env: Env, pr: int, end: Config)
    requires args.key.task in db.tasks && args.key in db.subs && pr in env.prs
  {
    var key, row, snap := args.key, db.subs[args.key], env.prs[pr];
    var entered := row.state == MergePending || GatePasses(db, key, Head(snap));
    var queued := QueuedAt(row, db.log, key, snap);
    var found := row.state == MergePending && snap.state == PrMerged;
    var lands := entered && !found && Lands(row, snap, queued, env.gh);
    var stale := !entered && Pinned(Head(snap)) && PassedSomewhere(db, key);
    var rework := stale || (entered && !found && NeedsRework(row, snap, queued, env.gh));
    var spent := row.rebaseRounds >= args.rebaseCap;
    && key in end.db.subs
    && var state := end.db.subs[key].state;
    && (state == Merged <==> lands || (found && Reconciles(row, snap)))
    && (state == NeedsRebase <==> rework && !spent)
    && (state == Blocked <==>
          || (rework && spent) || (found && !Reconciles(row, snap))
          || (entered && !found && Stuck(row, snap, queued, env.gh)))
    && (state == MergePending <==> entered && !found && AwaitsGrant(row, snap, queued))
    && (row.state != MergePending ==> (state == row.state <==> !entered && !stale))
    && end.env.prs == (if lands then env.prs[pr := snap.(state := PrMerged)] else env.prs)
    && end.db.subs[key].pr == Some(pr)
    && (forall k :: k in db.subs && k != key ==> k in end.db.subs && end.db.subs[k] == db.subs[k])
  }

  // The same from the beginning of the invocation, binding included.
  lemma RefusedFromStartIff(args: Args, db: Db, env: Env, pr: int)
    requires BeforeQueue(args, db) && About(args, db.subs[args.key], pr) && env.reachable && pr in env.prs
    requires !GatePasses(db, args.key, Head(env.prs[pr]))
    ensures var b, end := BoundDb(args, db, pr), Ends(args, db, env, Start);
      var spent := db.subs[args.key].rebaseRounds >= args.rebaseCap;
      var stale := Pinned(Head(env.prs[pr])) && PassedSomewhere(db, args.key);
      && (end.leg == Done(NotEligibleExit) <==> !stale) && (!stale ==> end.db == b)
      && (end.leg == Done(StaleVerdicts) <==> stale && !spent)
      && (stale && !spent ==> MovedTo(b, end.db, args.key, NeedsRebase, None))
      && (end.leg == Done(RebaseCapExit) <==> stale && spent)
      && (stale && spent ==> MovedTo(b, end.db, args.key, Blocked, None))
  {
    var b, row := BoundDb(args, db, pr), db.subs[args.key];
    BeginsIff(args, db, env);
    Looks(args, b, env, pr, row);
    assert GatePasses(b, args.key, Head(env.prs[pr])) == GatePasses(db, args.key, Head(env.prs[pr]));
    assert PassedSomewhere(b, args.key) == PassedSomewhere(db, args.key);
    hide Ends, GatePasses, PassedSomewhere, MovedTo, Pinned, Head;
    RefusedQueueIff(args, b, env, pr, env.prs[pr]);
  }

  // Nothing is decided on a pull request that cannot be read.
  lemma Unreadable(args: Args, db: Db, env: Env, pr: int)
    requires InEntry(args, db) && About(args, db.subs[args.key], pr) && !(env.reachable && pr in env.prs)
    ensures Ends(args, db, env, Start) == Config(BoundDb(args, db, pr), env, Done(PrQueryFailed))
  {
    BeginsIff(args, db, env);
    Looks(args, BoundDb(args, db, pr), env, pr, db.subs[args.key]);
    Starts(args, BoundDb(args, db, pr), env);
  }

  // What a run from the queue on leaves, in the terms of the whole invocation.
  predicate FateOf(row: SubtaskRow, snap: Pr, queued: Option<Sha>, gh: GhBehaviour, spent: bool, to: State) {
    var rework := NeedsRework(row, snap, queued, gh);
    && (to == Merged <==> Lands(row, snap, queued, gh))
    && (to == NeedsRebase <==> rework && !spent)
    && (to == Blocked <==> (rework && spent) || Stuck(row, snap, queued, gh))
    && (to == MergePending <==> AwaitsGrant(row, snap, queued))
  }

  lemma FateIsTold(args: Args, db: Db, env: Env, pr: int, queued: Option<Sha>, end: Config)
    requires args.key in db.subs && db.subs[args.key].state == MergePending && pr in env.prs
    requires QueueEnd(args, db, env, pr, queued, end)
    ensures var row, snap := db.subs[args.key], env.prs[pr];
      && args.key in end.db.subs
      && FateOf(row, snap, queued, env.gh, row.rebaseRounds >= args.rebaseCap, end.db.subs[args.key].state)
      && end.env.prs == (if Lands(row, snap, queued, env.gh) then env.prs[pr := snap.(state := PrMerged)] else env.prs)
      && end.db.subs[args.key].pr == row.pr
      && (forall k :: k in db.subs && k != args.key ==> k in end.db.subs && end.db.subs[k] == db.subs[k])
  {
    FatesAreExclusive(db.subs[args.key], env.prs[pr], queued, env.gh);
    hide Lands, NeedsRework, Stuck, AwaitsGrant, HeadLeft;
  }

  // The fate does not depend on the state or the binding of the row.
  lemma SameFate(a: SubtaskRow, b: SubtaskRow, snap: Pr, queued: Option<Sha>, gh: GhBehaviour)
    requires a.approved == b.approved
    ensures Lands(a, snap, queued, gh) == Lands(b, snap, queued, gh)
    ensures NeedsRework(a, snap, queued, gh) == NeedsRework(b, snap, queued, gh)
    ensures Stuck(a, snap, queued, gh) == Stuck(b, snap, queued, gh)
    ensures AwaitsGrant(a, snap, queued) == AwaitsGrant(b, snap, queued)
  {
  }

  lemma EndsThroughGate(args: Args, db: Db, env: Env, pr: int, row: SubtaskRow)
    requires BeforeQueue(args, db) && db.subs[args.key] == row.(pr := Some(pr)) && env.reachable && pr in env.prs
    requires GatePasses(db, args.key, Head(env.prs[pr]))
    ensures EndsAsTold(args, db, env, pr, Ends(args, db, env, Look(pr, row)))
  {
    hide Ends, GatePasses, PassedSomewhere, Transition, QueueEnd, PendingSha, Lands, NeedsRework, Stuck, AwaitsGrant;
    var snap := env.prs[pr];
    var q := Transition(db, MergemasterCall(args, MergePending, Head(snap))).db;
    EntersQueue(args, db, env, pr, row);
    FateIsTold(args, q, env, pr, Head(snap), Ends(args, db, env, Look(pr, row)));
    SameFate(q.subs[args.key], db.subs[args.key], snap, Head(snap), env.gh);
    FatesAreExclusive(db.subs[args.key], snap, Head(snap), env.gh);
  }

  // From the look on, with the pull request bound.
  lemma EndsFromLook(args: Args, db: Db, env: Env, pr: int, row: SubtaskRow)
    requires InEntry(args, db) && db.subs[args.key] == row.(pr := Some(pr)) && env.reachable && pr in env.prs
    ensures EndsAsTold(args, db, env, pr, Ends(args, db, env, Look(pr, row)))
  {
    hide Ends, GatePasses, PassedSomewhere, Transition, QueueEnd, PendingSha, Lands, NeedsRework, Stuck, AwaitsGrant;
    var snap := env.prs[pr];
    if row.state == MergePending {
      if snap.state == PrMerged {
        FoundMerged(args, db, env, pr, row);
      } else {
        Looks(args, db, env, pr, row);
        QueuedFate(args, db, env, pr);
        FateIsTold(args, db, env, pr, PendingSha(db.log, args.key), Ends(args, db, env, Look(pr, row)));
      }
    } else if GatePasses(db, args.key, Head(snap)) {
      EndsThroughGate(args, db, env, pr, row);
    } else {
      Looks(args, db, env, pr, row);
      RefusedQueueIff(args, db, env, pr, snap);
    }
  }

  // Binding a pull request changes nothing that any of this depends on.
  lemma BindingIsSilent(args: Args, db: Db, env: Env, pr: int, end: Config)
    requires InEntry(args, db) && About(args, db.subs[args.key], pr) && pr in env.prs
    requires EndsAsTold(args, BoundDb(args, db, pr), env, pr, end)
    ensures EndsAsTold(args, db, env, pr, end)
  {
    var b := BoundDb(args, db, pr);
    assert PassedSomewhere(b, args.key) == PassedSomewhere(db, args.key);
    assert GatePasses(b, args.key, Head(env.prs[pr])) == GatePasses(db, args.key, Head(env.prs[pr]));
    var queued := QueuedAt(db.subs[args.key], db.log, args.key, env.prs[pr]);
    SameFate(b.subs[args.key], db.subs[args.key], env.prs[pr], queued, env.gh);
    hide PassedSomewhere, GatePasses, Lands, NeedsRework, Stuck, AwaitsGrant, PendingSha;
  }

  lemma MergeEndsIff(args: Args, db: Db, env: Env, pr: int)
    requires InEntry(args, db) && About(args, db.subs[args.key], pr) && env.reachable && pr in env.prs
    ensures EndsAsTold(args, db, env, pr, Ends(args, db, env, Start))
  {
    var b := BoundDb(args, db, pr);
    BeginsIff(args, db, env);
    hide Ends;
    EndsFromLook(args, b, env, pr, db.subs[args.key]);
    BindingIsSilent(args, db, env, pr, Ends(args, b, env, Look(pr, db.subs[args.key])));
  }
}
