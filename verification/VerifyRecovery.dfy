/**
 Stopping `cb-phase verify` between two of its durable effects and running it
 again with the worktree and the pull request unchanged.
 */
module VerifyRecovery {
  import opened Basics
  import opened Fsm
  import opened Gate
  import opened Handoff

  // A run that goes through: the walk, the pinned record, then the PR binding.
  predicate Succeeds(db: Db, key: Key, cfg: Config, s: Sight) {
    && key.task in db.tasks && WalkExit(Row(db, key), cfg).None?
    && Row(db, key).verifyAttempts < cfg.maxVerifyAttempts && Gates(s).Passes?
  }

  // Its durable effects, one by one.
  function EffectCount(db: Db, key: Key, cfg: Config): nat {
    |WalkCalls(Row(db, key), key, cfg)| + 2
  }

  // The store a successful run leaves when it stops after `n` of them.
  function CutOff(db: Db, key: Key, pr: int, cfg: Config, s: Sight, n: nat): Db
    requires Succeeds(db, key, cfg, s)
  {
    var calls := WalkCalls(Row(db, key), key, cfg);
    if n <= |calls| then RunAll(db, calls[..n])
    else if n == |calls| + 1 then Transition(Walk(db, key, cfg), Submit(key, Gates(s).head)).db
    else VerifyLeg(db, key, pr, cfg, s).db
  }

  lemma {:induction false} RunAllConcat(db: Db, a: seq<Call>, b: seq<Call>)
    ensures RunAll(db, a + b) == RunAll(RunAll(db, a), b)
    decreases |a|
  {
    if a == [] {
      assert a + b == b;
    } else {
      assert (a + b)[1..] == a[1..] + b;
      RunAllConcat(Transition(db, a[0]).db, a[1..], b);
    }
  }

  // Stopped within the walk, the row asks for just the rest of the walk.
  lemma WalkResumes(row: SubtaskRow, key: Key, cfg: Config, n: nat)
    requires WalkExit(row, cfg).None? && n <= |WalkCalls(row, key, cfg)|
    ensures var calls := WalkCalls(row, key, cfg);
      var rest := row.(state := Reached(row.state, calls[..n]));
      WalkExit(rest, cfg).None? && WalkCalls(rest, key, cfg) == calls[n..]
  {
  }

  lemma {:induction false} PrefixIsPlain(row: SubtaskRow, key: Key, calls: seq<Call>, n: nat)
    requires PlainRework(row, key, calls) && n <= |calls|
    ensures PlainRework(row, key, calls[..n])
    decreases |calls|
  {
    if n > 0 {
      PrefixIsPlain(row.(state := calls[0].next), key, calls[1..], n - 1);
      assert calls[..n][1..] == calls[1..][..n - 1];
    }
  }

  // The row after part of the walk.
  lemma {:induction false} RowWithinWalk(db: Db, key: Key, cfg: Config, n: nat)
    requires key.task in db.tasks && WalkExit(Row(db, key), cfg).None?
    requires n <= |WalkCalls(Row(db, key), key, cfg)|
    ensures var calls := WalkCalls(Row(db, key), key, cfg);
      var cut := RunAll(db, calls[..n]);
      cut.tasks == db.tasks && Row(cut, key) == Row(db, key).(state := Reached(Row(db, key).state, calls[..n]))
  {
    var row, ready := Row(db, key), Ensure(db, key);
    var calls := WalkCalls(row, key, cfg);
    WalkIsPlain(row, key, cfg);
    PrefixIsPlain(row, key, calls, n);
    if n > 0 {
      SameButEnsured(db, key);
      EnsureIs(db, key);
      WalkShape(row, key, cfg);
      hide Transition, RunAll, AllApplied, WalkCalls, WalkExit, PlainRework, Rows, Ensure;
      EnsureFirst(db, calls[..n], key);
      WalkStepsApply(ready, key, calls[..n]);
    }
  }

  // Cut off within the walk, the second run is the rest of the first - whether
  // or not the gates then let it through.
  lemma {:induction false} RerunWithinWalk(db: Db, key: Key, pr: int, cfg: Config, s: Sight, n: nat)
    requires key.task in db.tasks && WalkExit(Row(db, key), cfg).None?
    requires n <= |WalkCalls(Row(db, key), key, cfg)|
    ensures var cut := RunAll(db, WalkCalls(Row(db, key), key, cfg)[..n]);
      VerifyLeg(cut, key, pr, cfg, s) == VerifyLeg(db, key, pr, cfg, s)
  {
    var row := Row(db, key);
    var calls := WalkCalls(row, key, cfg);
    RowWithinWalk(db, key, cfg, n);
    WalkResumes(row, key, cfg, n);
    assert calls == calls[..n] + calls[n..];
    RunAllConcat(db, calls[..n], calls[n..]);
    hide RunAll, WalkCalls, WalkExit, GateLeg, Reached;
  }

  // From in review on, a second run is refused and writes nothing.
  lemma RerunIsRefused(db: Db, key: Key, pr: int, cfg: Config, s: Sight)
    requires key.task in db.tasks && Row(db, key).state == ReviewPending
    ensures VerifyLeg(db, key, pr, cfg, s) == LegResult(db, BadEntryState)
  {
  }

  lemma {:induction false} RecordedRow(db: Db, key: Key, pr: int, cfg: Config, s: Sight)
    requires Succeeds(db, key, cfg, s)
    ensures var recorded := Transition(Walk(db, key, cfg), Submit(key, Gates(s).head)).db;
      && recorded.tasks == db.tasks && key in recorded.subs
      && recorded.subs[key] == Row(db, key).(state := ReviewPending)
      && VerifyLeg(db, key, pr, cfg, s).db == SetPr(recorded, key, pr)
  {
    VerifyRecordedIff(db, key, pr, cfg, s);
    WalkedIn(db, key, cfg);
    assert IsAllowed(VerifyPending, Coder, ReviewPending);
    hide Walk, WalkExit, Transition, Gates;
    ReworkStep(Walk(db, key, cfg), Submit(key, Gates(s).head));
  }

  // Stop a successful verify after any number of its effects and run it again:
  // rows, tasks and log end as after the undisturbed run - unless it stopped
  // between record and binding with the row not yet bound to this PR. Then the
  // second run is refused and the binding is lost.
  lemma {:induction false} RerunConvergesIff(db: Db, key: Key, pr: int, cfg: Config, s: Sight, n: nat)
    requires Succeeds(db, key, cfg, s)
    ensures var again := VerifyLeg(CutOff(db, key, pr, cfg, s, n), key, pr, cfg, s).db;
      var whole := VerifyLeg(db, key, pr, cfg, s).db;
      (again.subs == whole.subs && again.tasks == whole.tasks && again.log == whole.log)
      <==> !(n == EffectCount(db, key, cfg) - 1 && Row(db, key).pr != Some(pr))
  {
    if n <= |WalkCalls(Row(db, key), key, cfg)| {
      RerunWithinWalk(db, key, pr, cfg, s, n);
    } else {
      VerifyRecordedIff(db, key, pr, cfg, s);
      RecordedRow(db, key, pr, cfg, s);
      RerunIsRefused(CutOff(db, key, pr, cfg, s, n), key, pr, cfg, s);
      hide VerifyLeg, Transition, Walk, WalkCalls;
    }
  }
}
