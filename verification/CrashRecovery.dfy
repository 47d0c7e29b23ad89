/**
 Stopping `cb-phase merge` after any action and running it again. With the pull
 request otherwise left alone the second run ends where an undisturbed run would
 have ended - except from one entry situation, which is characterised exactly.
 */
module CrashRecovery {
  import opened Basics
  import opened Fsm
  import opened Gate
  import opened MergeLeg
  import opened MergeCommand

  // Same rows, counters, bindings, markers, tasks, log and pull requests; the
  // audit trail may hold a repeated event.
  predicate SameEnd(a: Config, b: Config) {
    a.db.subs == b.db.subs && a.db.tasks == b.db.tasks && a.db.log == b.db.log && a.env == b.env
  }

  function Restart(c: Config): Config {
    c.(leg := Start)
  }

  // Crashing at `c` and re-running ends as finishing from `c` would.
  predicate Converges(args: Args, c: Config) {
    SameEnd(Finish(args, Restart(c)), Finish(args, c))
  }

  // The entry situation that does not converge: about to queue, the PR already
  // merged at a head that passes the gate and that an old grant still names.
  predicate Hazard(args: Args, c: Config) {
    && args.key.task in c.db.tasks
    && args.key in c.db.subs
    && var row := c.db.subs[args.key];
    && (row.state == ReviewPassed || row.state == AcceptancePassed)
    && (args.pr.Some? || row.pr.Some?)
    && (args.pr.Some? && row.pr.Some? ==> args.pr == row.pr)
    && var pr := if args.pr.Some? then args.pr.value else row.pr.value;
    && c.env.reachable && pr in c.env.prs
    && c.env.prs[pr].state == PrMerged
    && Head(c.env.prs[pr]).Some? && row.approved == Head(c.env.prs[pr])
    && GatePasses(c.db, args.key, Head(c.env.prs[pr]))
  }

  // ── what a run knows at each point ──────────────────────────────────────

  predicate Bound(args: Args, c: Config, pr: int) {
    && args.key.task in c.db.tasks
    && args.key in c.db.subs
    && c.db.subs[args.key].pr == Some(pr)
    && (args.pr.None? || args.pr == Some(pr))
    && c.env.reachable && pr in c.env.prs
  }

  predicate Queued(args: Args, c: Config, pr: int, snap: Pr) {
    && Bound(args, c, pr) && snap == c.env.prs[pr]
    && c.db.subs[args.key].state == MergePending
  }

  // Past the SHA re-check: the PR is open and still at the queued SHA.
  predicate Fresh(args: Args, c: Config, pr: int, snap: Pr, pending: Option<Sha>) {
    && Queued(args, c, pr, snap) && snap.state == Open
    && pending == PendingSha(c.db.log, args.key)
    && (pending.Some? ==> Head(snap) == pending)
  }

  predicate Ungranted(args: Args, c: Config, pending: Option<Sha>)
    requires args.key in c.db.subs
  {
    !(pending.Some? && c.db.subs[args.key].approved == pending)
  }

  predicate Knows(args: Args, c: Config) {
    match c.leg
    case Bind(pr, row) =>
      && args.key.task in c.db.tasks
      && args.key in c.db.subs && row == c.db.subs[args.key]
      && args.pr == Some(pr) && row.pr == None
      && EntryState(row.state)
    case Look(pr, row) =>
      && args.key.task in c.db.tasks
      && args.key in c.db.subs && row.(pr := Some(pr)) == c.db.subs[args.key]
      && (args.pr.None? || args.pr == Some(pr))
      && EntryState(row.state)
    case Enqueue(pr, snap) =>
      && Bound(args, c, pr) && snap == c.env.prs[pr]
      && (c.db.subs[args.key].state == ReviewPassed || c.db.subs[args.key].state == AcceptancePassed)
    case ReadQueue(pr, snap) =>
      && Queued(args, c, pr, snap)
      && (snap.state == PrMerged ==> PendingSha(c.db.log, args.key) == Head(snap))
    case ReadGrant(pr, snap, pending) => Fresh(args, c, pr, snap, pending)
    case Send(pr, snap, pending) => Fresh(args, c, pr, snap, pending) && Ungranted(args, c, pending)
    case Mark(pending) =>
      && args.key in c.db.subs && c.db.subs[args.key].pr.Some?
      && var pr := c.db.subs[args.key].pr.value;
      && pr in c.env.prs
      && Fresh(args, c, pr, c.env.prs[pr], pending) && Ungranted(args, c, pending)
    case Execute(pr, snap, pinned) =>
      && Fresh(args, c, pr, snap, Some(pinned))
      && c.db.subs[args.key].approved == Some(pinned)
    case _ => true
  }

  lemma PendingAfter(log: seq<LogRow>, key: Key, from: State, role: Role, sha: Option<Sha>)
    ensures PendingSha(log + [LogRow(key, from, MergePending, role, sha)], key) == sha
  {
  }

  lemma KnowsEnqueue(args: Args, c: Config)
    requires Knows(args, c) && c.leg.Enqueue?
    ensures Knows(args, Next(args, c))
  {
    hide Evaluate, AllMerged, HasRow;
    var call := MergemasterCall(args, MergePending, Head(c.leg.snap));
    if Transition(c.db, call).outcome == Applied {
      PendingAfter(c.db.log, args.key, c.db.subs[args.key].state, Mergemaster, Head(c.leg.snap));
    }
  }

  lemma KnowsStep(args: Args, c: Config)
    requires Knows(args, c) && c.leg != Start
    ensures Knows(args, Next(args, c))
  {
    if c.leg.Enqueue? {
      KnowsEnqueue(args, c);
    } else {
      hide Transition, PendingSha;
    }
  }

  // ── the audit trail does not steer anything ─────────────────────────────

  predicate SameButAudit(a: Db, b: Db) {
    a.subs == b.subs && a.tasks == b.tasks && a.log == b.log
  }

  lemma TransitionIgnoresAudit(a: Db, b: Db, call: Call)
    requires SameButAudit(a, b)
    ensures Transition(a, call).outcome == Transition(b, call).outcome
    ensures SameButAudit(Transition(a, call).db, Transition(b, call).db)
  {
  }

  lemma {:induction false} StepIgnoresAudit(args: Args, a: Config, b: Config)
    requires SameButAudit(a.db, b.db) && a.env == b.env && a.leg == b.leg
    ensures var x, y := Next(args, a), Next(args, b);
      SameButAudit(x.db, y.db) && x.env == y.env && x.leg == y.leg
  {
    match a.leg
    case Enqueue(_, snap) => TransitionIgnoresAudit(a.db, b.db, MergemasterCall(args, MergePending, Head(snap)));
    case Record(sha, _, _) => TransitionIgnoresAudit(a.db, b.db, MergemasterCall(args, Merged, sha));
    case SendBack(_) => TransitionIgnoresAudit(a.db, b.db, SendBackCall(args));
    case CapBlock => TransitionIgnoresAudit(a.db, b.db, MergemasterCall(args, Blocked, None));
    case Block(_) => TransitionIgnoresAudit(a.db, b.db, MergemasterCall(args, Blocked, None));
    case _ =>
  }

  lemma {:induction false} FinishIgnoresAudit(args: Args, a: Config, b: Config)
    requires SameButAudit(a.db, b.db) && a.env == b.env && a.leg == b.leg
    ensures SameEnd(Finish(args, a), Finish(args, b))
    decreases Ahead(a.leg)
  {
    if !a.leg.Done? {
      StepIgnoresAudit(args, a, b);
      StepGoesAhead(a.db, args, a.leg, Answer(a.env, a.leg));
      FinishIgnoresAudit(args, Next(args, a), Next(args, b));
    }
  }

  // ── re-entry: where a fresh run gets to without writing anything ────────

  // With the PR bound, a run reaches the snapshot decision on the stored row.
  lemma ReentersLook(args: Args, c: Config, pr: int)
    requires Bound(args, c, pr) && EntryState(c.db.subs[args.key].state)
    ensures Finish(args, Restart(c))
         == Finish(args, c.(leg := AfterLook(pr, c.db.subs[args.key], Some(c.env.prs[pr]))))
  {
    var row := c.db.subs[args.key];
    FinishStep(args, Restart(c));
    assert Next(args, Restart(c)) == c.(leg := Look(pr, row));
    FinishStep(args, c.(leg := Look(pr, row)));
  }

  lemma ReentersQueue(args: Args, c: Config, pr: int, snap: Pr)
    requires Queued(args, c, pr, snap) && snap.state != PrMerged
    ensures Finish(args, Restart(c)) == Finish(args, c.(leg := ReadQueue(pr, snap)))
  {
    ReentersLook(args, c, pr);
  }

  lemma ReentersGrant(args: Args, c: Config, pr: int, snap: Pr, pending: Option<Sha>)
    requires Fresh(args, c, pr, snap, pending)
    ensures Finish(args, Restart(c)) == Finish(args, c.(leg := ReadGrant(pr, snap, pending)))
  {
    ReentersQueue(args, c, pr, snap);
    FinishStep(args, c.(leg := ReadQueue(pr, snap)));
  }

  // A subtask out of the entry states is left alone.
  lemma ReentryIsRefused(args: Args, c: Config)
    requires args.key in c.db.subs && !EntryState(c.db.subs[args.key].state)
    ensures Finish(args, Restart(c)).db == c.db && Finish(args, Restart(c)).env == c.env
  {
    FinishStep(args, Restart(c));
  }

  // ── convergence is kept by every action ─────────────────────────────────

  // An action that changes nothing durable cannot lose convergence.
  lemma LocalStep(args: Args, c: Config)
    requires Converges(args, c) && !c.leg.Done?
    requires Next(args, c).db == c.db && Next(args, c).env == c.env
    ensures Converges(args, Next(args, c))
  {
    FinishStep(args, c);
    assert Restart(Next(args, c)) == Restart(c);
  }

  // The closing transition: either nothing happened, or the row has left the
  // entry states and a second run refuses it.
  lemma ClosingStep(args: Args, c: Config, call: Call, exit: Exit)
    requires Converges(args, c) && !c.leg.Done?
    requires Next(args, c) == Config(WriteStep(c.db, call, exit).db, c.env, WriteStep(c.db, call, exit).leg)
    requires call.key == args.key && call.next in {Merged, NeedsRebase, Blocked}
    requires args.key in c.db.subs
    ensures Converges(args, Next(args, c))
  {
    FinishStep(args, c);
    var end := Next(args, c);
    if Transition(c.db, call).outcome == Applied {
      ReentryIsRefused(args, end);
    } else {
      assert end.db == c.db;
    }
  }

  lemma BindStep(args: Args, c: Config)
    requires Knows(args, c) && c.leg.Bind?
    ensures Converges(args, Next(args, c))
  {
    var pr, row := c.leg.pr, c.leg.row;
    var next := Next(args, c);
    var stored := row.(pr := Some(pr));
    assert next.db.subs[args.key] == stored;
    FinishStep(args, Restart(next));
    assert Next(args, Restart(next)) == next.(leg := Look(pr, stored));
    FinishStep(args, next.(leg := Look(pr, stored)));
    FinishStep(args, next);
    assert Next(args, next) == Next(args, next.(leg := Look(pr, stored)));
  }

  // Uninterrupted, a PR seen merged right after queueing is blocked.
  lemma {:induction false} MergedIsBlocked(args: Args, c: Config, pr: int, snap: Pr)
    requires Queued(args, c, pr, snap) && snap.state == PrMerged
    requires c.leg == ReadQueue(pr, snap) && PendingSha(c.db.log, args.key) == Head(snap)
    ensures Finish(args, c).db == Transition(c.db, MergemasterCall(args, Blocked, None)).db
    ensures Finish(args, c).env == c.env
    ensures Finish(args, c).db.subs[args.key].state == Blocked
  {
    hide Evaluate, PendingSha, HasRow, AllMerged;
    FinishStep(args, c);
    FinishStep(args, c.(leg := Block(PrNotOpen)));
  }

  // A fresh run over the same row reconciles it if the grant names the head ...
  lemma MergedReconciles(args: Args, c: Config, pr: int, snap: Pr)
    requires Queued(args, c, pr, snap) && snap.state == PrMerged
    requires Head(snap).Some? && c.db.subs[args.key].approved == Head(snap)
    ensures args.key in Finish(args, Restart(c)).db.subs
    ensures Finish(args, Restart(c)).db.subs[args.key].state == Merged
  {
    ReentersLook(args, c, pr);
    FinishStep(args, c.(leg := Record(Head(snap), Head(snap).value, Reconciled)));
  }

  // ... and otherwise blocks it, adding only an audit event.
  lemma MergedIsUngated(args: Args, c: Config, pr: int, snap: Pr)
    requires Queued(args, c, pr, snap) && snap.state == PrMerged
    requires Head(snap).None? || c.db.subs[args.key].approved != Head(snap)
    ensures SameButAudit(Finish(args, Restart(c)).db,
                         Transition(c.db, MergemasterCall(args, Blocked, None)).db)
    ensures Finish(args, Restart(c)).env == c.env
  {
    var row := c.db.subs[args.key];
    ReentersLook(args, c, pr);
    var report := c.(leg := ReportUngated(pr, Head(snap), row.approved));
    FinishStep(args, report);
    var block := Next(args, report);
    FinishStep(args, block);
    TransitionIgnoresAudit(c.db, block.db, MergemasterCall(args, Blocked, None));
  }

  // So on a queued row whose PR is merged the two runs differ exactly when the
  // grant names the merged head.
  lemma MergedConvergesIff(args: Args, c: Config, pr: int, snap: Pr)
    requires Queued(args, c, pr, snap) && snap.state == PrMerged
    requires c.leg == ReadQueue(pr, snap) && PendingSha(c.db.log, args.key) == Head(snap)
    ensures Converges(args, c) <==> Head(snap).None? || c.db.subs[args.key].approved != Head(snap)
  {
    hide Finish, Transition, PendingSha;
    MergedIsBlocked(args, c, pr, snap);
    if Head(snap).Some? && c.db.subs[args.key].approved == Head(snap) {
      MergedReconciles(args, c, pr, snap);
    } else {
      MergedIsUngated(args, c, pr, snap);
    }
  }

  lemma HazardAtEnqueue(args: Args, c: Config)
    requires Knows(args, c) && c.leg.Enqueue? && c.leg.snap.state == PrMerged
    requires GatePasses(c.db, args.key, Head(c.leg.snap))
    ensures Hazard(args, c) <==> Head(c.leg.snap).Some? && c.db.subs[args.key].approved == Head(c.leg.snap)
  {
    hide GatePasses;
  }

  // Right after queueing a merged PR the two runs differ exactly in the hazard.
  lemma EnqueueMerged(args: Args, c: Config)
    requires Knows(args, c) && c.leg.Enqueue? && c.leg.snap.state == PrMerged
    requires Transition(c.db, MergemasterCall(args, MergePending, Head(c.leg.snap))).outcome == Applied
    ensures Converges(args, Next(args, c)) <==> !Hazard(args, c)
  {
    hide Finish, Converges, Hazard, Transition, LegStep, GatePasses, PendingSha;
    KnowsStep(args, c);
    AppliedQueueing(args, c);
    HazardAtEnqueue(args, c);
    MergedConvergesIff(args, Next(args, c), c.leg.pr, c.leg.snap);
  }

  lemma AppliedQueueing(args: Args, c: Config)
    requires Knows(args, c) && c.leg.Enqueue?
    requires Transition(c.db, MergemasterCall(args, MergePending, Head(c.leg.snap))).outcome == Applied
    ensures Next(args, c).leg == ReadQueue(c.leg.pr, c.leg.snap)
    ensures Next(args, c).db.subs[args.key].approved == c.db.subs[args.key].approved
    ensures GatePasses(c.db, args.key, Head(c.leg.snap))
  {
    EligibleIffGatePasses(c.db, args.key, Head(c.leg.snap));
  }

  lemma {:induction false} EnqueueStep(args: Args, c: Config)
    requires Knows(args, c) && c.leg.Enqueue? && Converges(args, c)
    ensures Converges(args, Next(args, c)) <==> !Hazard(args, c)
  {
    var pr, snap := c.leg.pr, c.leg.snap;
    var call := MergemasterCall(args, MergePending, Head(snap));
    EligibleIffGatePasses(c.db, args.key, Head(snap));
    if Transition(c.db, call).outcome != Applied {
      assert Next(args, c).db == c.db;
      LocalStep(args, c);
    } else if snap.state == PrMerged {
      EnqueueMerged(args, c);
    } else {
      var next := Next(args, c);
      KnowsStep(args, c);
      ReentersQueue(args, next, pr, snap);
      assert next == next.(leg := ReadQueue(pr, snap));
    }
  }

  lemma {:induction false} ReportStep(args: Args, c: Config)
    requires c.leg.ReportUngated? && Converges(args, c)
    ensures Converges(args, Next(args, c))
  {
    FinishStep(args, c);
    FinishIgnoresAudit(args, Restart(Next(args, c)), Restart(c));
  }

  lemma MarkStep(args: Args, c: Config)
    requires Knows(args, c) && c.leg.Mark?
    ensures Converges(args, Next(args, c))
  {
    var pending := c.leg.pending;
    var pr := c.db.subs[args.key].pr.value;
    var next := Next(args, c);
    var snap := c.env.prs[pr];
    ReentersGrant(args, next, pr, snap, pending);
    FinishStep(args, next.(leg := ReadGrant(pr, snap, pending)));
  }

  // The merge landed: the re-run reconciles at the granted head, which is what
  // both remaining paths of the first run record.
  lemma {:induction false} ExecuteStep(args: Args, c: Config)
    requires Knows(args, c) && c.leg.Execute? && Converges(args, c)
    ensures Converges(args, Next(args, c))
  {
    var pr, snap, pinned := c.leg.pr, c.leg.snap, c.leg.pinned;
    var next := Next(args, c);
    if next.env == c.env {
      LocalStep(args, c);
    } else {
      ReentersLook(args, next, pr);
      var record := next.(leg := Record(Some(pinned), pinned, Reconciled));
      assert Finish(args, Restart(next)) == Finish(args, record);
      FinishStep(args, record);
      if next.leg.Record? {
        FinishStep(args, next);
      } else {
        FinishStep(args, next);
        FinishStep(args, Next(args, next));
      }
    }
  }

  // Only queueing can lose convergence, and only in the hazard.
  lemma {:induction false} ConvergesStep(args: Args, c: Config)
    requires Knows(args, c) && Converges(args, c) && !c.leg.Done?
    requires c.leg.Enqueue? ==> !Hazard(args, c)
    requires args.key in c.db.subs
    ensures Converges(args, Next(args, c))
  {
    match c.leg
    case Bind(_, _) => BindStep(args, c);
    case Enqueue(_, _) => EnqueueStep(args, c);
    case ReportUngated(_, _, _) => ReportStep(args, c);
    case Mark(_) => MarkStep(args, c);
    case Execute(_, _, _) => ExecuteStep(args, c);
    case Record(sha, _, exit) => ClosingStep(args, c, MergemasterCall(args, Merged, sha), exit);
    case SendBack(exit) => ClosingStep(args, c, SendBackCall(args), exit);
    case CapBlock => ClosingStep(args, c, MergemasterCall(args, Blocked, None), RebaseCapExit);
    case Block(exit) => ClosingStep(args, c, MergemasterCall(args, Blocked, None), exit);
    case _ => LocalStep(args, c);
  }

  // ── every crash point of every run ──────────────────────────────────────

  // While the run has not queued, the hazard is still that of its start.
  predicate BeforeQueue(leg: Leg) {
    leg.Start? || leg.Bind? || leg.Look? || leg.Enqueue?
  }

  lemma HazardStands(args: Args, c: Config)
    requires BeforeQueue(c.leg) && BeforeQueue(Next(args, c).leg) && Knows(args, c)
    ensures Hazard(args, Next(args, c)) <==> Hazard(args, c)
  {
    if c.leg.Bind? {
      var head := Head(if c.leg.pr in c.env.prs then c.env.prs[c.leg.pr] else Pr(Closed, None, Unknown));
      assert GatePasses(Next(args, c).db, args.key, head) <==> GatePasses(c.db, args.key, head);
    }
  }

  // No action of a run brings the hazard about.
  lemma HazardNeverAppears(args: Args, c: Config)
    requires Knows(args, c) && !Hazard(args, c)
    requires !c.leg.Start? && !c.leg.Done? ==> args.key in c.db.subs
    ensures !Hazard(args, Next(args, c))
  {
    if BeforeQueue(c.leg) && BeforeQueue(Next(args, c).leg) {
      HazardStands(args, c);
    } else if c.leg.ReportUngated? && args.key.task in c.db.tasks {
      var row := c.db.subs[args.key];
      if args.pr.Some? || row.pr.Some? {
        var pr := if args.pr.Some? then args.pr.value else row.pr.value;
        if pr in c.env.prs {
          var head := Head(c.env.prs[pr]);
          assert GatePasses(Next(args, c).db, args.key, head) <==> GatePasses(c.db, args.key, head);
        }
      }
    }
  }

  // What holds at every point of a run that did not start in the hazard.
  predicate OnCourse(args: Args, c: Config) {
    && Knows(args, c) && Converges(args, c) && !Hazard(args, c)
    && (!c.leg.Start? && !c.leg.Done? ==> args.key in c.db.subs)
  }

  lemma {:induction false} OnCourseStep(args: Args, c: Config)
    requires OnCourse(args, c)
    ensures OnCourse(args, Next(args, c))
  {
    HazardNeverAppears(args, c);
    if c.leg.Done? {
      assert Next(args, c) == c;
    } else if c.leg.Start? {
      LocalStep(args, c);
    } else {
      KnowsStep(args, c);
      ConvergesStep(args, c);
    }
  }

  lemma {:induction false} OnCourseAfter(args: Args, c: Config, n: nat)
    requires OnCourse(args, c)
    ensures OnCourse(args, After(args, c, n))
  {
    hide OnCourse, Next;
    if n > 0 {
      OnCourseAfter(args, c, n - 1);
      OnCourseStep(args, After(args, c, n - 1));
    }
  }

  lemma FinishNext(args: Args, c: Config)
    ensures Finish(args, Next(args, c)) == Finish(args, c)
  {
    if c.leg.Done? {
      assert Next(args, c) == c;
    } else {
      FinishStep(args, c);
    }
  }

  lemma {:induction false} FinishAfter(args: Args, c: Config, n: nat)
    ensures Finish(args, After(args, c, n)) == Finish(args, c)
  {
    if n > 0 {
      FinishAfter(args, c, n - 1);
      FinishNext(args, After(args, c, n - 1));
    }
  }

  // The run in the hazard passes the point where a crash changes the outcome.
  function HazardPoint(args: Args, c: Config): nat
  {
    if args.pr.Some? && Row(c.db, args.key).pr.None? then 4 else 3
  }

  lemma HazardDiverges(args: Args, c: Config)
    requires c.leg == Start && Hazard(args, c)
    ensures !Converges(args, After(args, c, HazardPoint(args, c)))
  {
    var row := c.db.subs[args.key];
    var c1 := Next(args, c);
    assert Knows(args, c1);
    HazardStands(args, c);
    if HazardPoint(args, c) == 4 {
      KnowsStep(args, c1);
      HazardStands(args, c1);
      HazardAtLook(args, Next(args, c1));
    } else {
      HazardAtLook(args, c1);
    }
    AfterFew(args, c);
  }

  lemma AfterFew(args: Args, c: Config)
    ensures After(args, c, 3) == Next(args, Next(args, Next(args, c)))
    ensures After(args, c, 4) == Next(args, Next(args, Next(args, Next(args, c))))
  {
    assert After(args, c, 0) == c;
    assert After(args, c, 1) == Next(args, c);
    assert After(args, c, 2) == Next(args, Next(args, c));
    assert After(args, c, 3) == Next(args, After(args, c, 2));
  }

  lemma {:induction false} HazardAtLook(args: Args, c: Config)
    requires Knows(args, c) && c.leg.Look? && Hazard(args, c)
    ensures !Converges(args, Next(args, Next(args, c)))
  {
    KnowsStep(args, c);
    var q := Next(args, c);
    HazardStands(args, c);
    EligibleIffGatePasses(q.db, args.key, Head(q.leg.snap));
    EnqueueMerged(args, q);
  }

  // Runs that crash after the given numbers of actions, one re-run after the
  // other, and a last run that is left alone.
  function CrashRun(args: Args, c: Config, crashes: seq<nat>): Config
    decreases |crashes|
  {
    if crashes == [] then Finish(args, c)
    else CrashRun(args, Restart(After(args, c, crashes[0])), crashes[1..])
  }

  lemma OneCrash(args: Args, c: Config, n: nat)
    ensures CrashRun(args, c, [n]) == Finish(args, Restart(After(args, c, n)))
  {
    assert [n][1..] == [];
  }

  lemma HazardCrash(args: Args, c: Config)
    requires c.leg == Start && Hazard(args, c)
    ensures !SameEnd(CrashRun(args, c, [HazardPoint(args, c)]), Finish(args, c))
  {
    var n := HazardPoint(args, c);
    HazardDiverges(args, c);
    FinishAfter(args, c, n);
    OneCrash(args, c, n);
  }

  lemma StartIsOnCourse(args: Args, c: Config)
    requires c.leg == Start && !Hazard(args, c)
    ensures OnCourse(args, c)
  {
    assert Restart(c) == c;
  }

  lemma {:induction false} CrashesConverge(args: Args, c: Config, crashes: seq<nat>)
    requires c.leg == Start && OnCourse(args, c)
    ensures SameEnd(CrashRun(args, c, crashes), Finish(args, c))
    decreases |crashes|
  {
    if crashes != [] {
      var n := crashes[0];
      OnCourseAfter(args, c, n);
      FinishAfter(args, c, n);
      var again := Restart(After(args, c, n));
      StartIsOnCourse(args, again);
      CrashesConverge(args, again, crashes[1..]);
    }
  }

  // Crash at any points, any number of times, and run again: the row with its
  // counters, binding and markers, the task, the log and the PR end as after an
  // undisturbed run - for all crash points exactly when the run does not start
  // in the hazard.
  lemma CrashConvergesIff(args: Args, db: Db, env: Env)
    ensures var c := Config(db, env, Start);
      (forall crashes: seq<nat> :: SameEnd(CrashRun(args, c, crashes), Finish(args, c)))
      <==> !Hazard(args, c)
  {
    var c := Config(db, env, Start);
    if Hazard(args, c) {
      HazardCrash(args, c);
    } else {
      StartIsOnCourse(args, c);
      forall crashes: seq<nat>
        ensures SameEnd(CrashRun(args, c, crashes), Finish(args, c))
      {
        CrashesConverge(args, c, crashes);
      }
    }
  }

  // A merged subtask is never touched again.
  lemma RerunOnMerged(args: Args, c: Config)
    requires args.key.task in c.db.tasks
    requires args.key in c.db.subs && c.db.subs[args.key].state == Merged
    ensures Finish(args, Restart(c)) == c.(leg := Done(AlreadyMerged))
  {
    FinishStep(args, Restart(c));
  }
}
