/**
 Two merge legs (module MergeLeg) on one subtask: what the second makes of a step
 the first has already recorded, whatever happened in between.
 */
module Racing {
  import opened Basics
  import opened Fsm
  import opened Gate
  import opened History
  import opened MergeLeg
  import opened Answers

  // Merged is final.
  lemma {:induction false} MergedStays(db: Db, ops: seq<Op>, key: Key)
    requires key in db.subs && db.subs[key].state == Merged
    ensures var end := RunFrom(db, ops); key in end.subs && end.subs[key].state == Merged
    decreases |ops|
  {
    if ops != [] {
      var front, op := ops[..|ops| - 1], ops[|ops| - 1];
      MergedStays(db, front, key);
      if op.DoTransition? {
        TransitionIsLocal(RunFrom(db, front), op.call);
        hide HasRow, Evaluate, Promoted;
      }
    }
  }

  // A leg that comes to record a merge some leg recorded at this commit before
  // counts it as done and writes nothing; at another commit it is rejected.
  lemma SecondRecord(db: Db, args: Args, sha: Sha, later: seq<Op>, leg: Leg, second: Sha)
    requires Transition(db, MergemasterCall(args, Merged, Some(sha))).outcome == Applied
    requires leg.Record? && leg.sha == Some(second)
    requires second != sha ==> !HasRow(db.log, args.key, Merged, Some(second))
    ensures var end := RunFrom(Transition(db, MergemasterCall(args, Merged, Some(sha))).db, later);
      LegStep(end, args, leg, Quiet) == StepResult(end, Done(if second == sha then leg.exit else TransitionRejected))
  {
    var c := MergemasterCall(args, Merged, Some(sha));
    var after := Transition(db, c).db;
    var end := RunFrom(after, later);
    AppliedIsMerged(db, c);
    MergedStays(after, later, args.key);
    RetryAfterAnything(db, c, later);
    if second != sha {
      RowSnoc(db.log, after.log[|db.log|], args.key, Merged, Some(second));
      NoMoreMergedRows(after, later, args.key, Some(second));
    }
    hide RunFrom, HasRow;
  }

  lemma AppliedIsMerged(db: Db, c: Call)
    requires c.next == Merged && Transition(db, c).outcome == Applied
    ensures var after := Transition(db, c).db;
      && c.key.task in after.tasks && c.key in after.subs && after.subs[c.key].state == Merged
      && |after.log| == |db.log| + 1 && after.log == db.log + [after.log[|db.log|]]
      && after.log[|db.log|].key == c.key && after.log[|db.log|].to == Merged && after.log[|db.log|].sha == c.sha
  {
    hide Decide;
  }

  lemma {:induction false} NoMoreMergedRows(db: Db, ops: seq<Op>, key: Key, sha: Option<Sha>)
    requires key in db.subs && db.subs[key].state == Merged && !HasRow(db.log, key, Merged, sha)
    ensures !HasRow(RunFrom(db, ops).log, key, Merged, sha)
    decreases |ops|
  {
    if ops != [] {
      var front, op := ops[..|ops| - 1], ops[|ops| - 1];
      MergedStays(db, front, key);
      NoMoreMergedRows(db, front, key, sha);
      OpRow(RunFrom(db, front), op, key, Merged, sha);
      MergedTakesNoMore(RunFrom(db, front), op, key, sha);
    }
  }

  lemma MergedTakesNoMore(db: Db, op: Op, key: Key, sha: Option<Sha>)
    requires key in db.subs && db.subs[key].state == Merged
    ensures !Records(db, op, key, Merged, sha)
  {
    hide HasRow, Evaluate;
  }

  // A leg that comes to queue a subtask some leg queued at this head before goes
  // on to the checks of a queued subtask, unless the subtask has left for rework
  // or may be queued anew.
  lemma SecondQueue(db: Db, args: Args, later: seq<Op>, pr: int, snap: Pr)
    requires Head(snap).Some?
    requires Transition(db, MergemasterCall(args, MergePending, Head(snap))).outcome == Applied
    ensures var end := RunFrom(Transition(db, MergemasterCall(args, MergePending, Head(snap))).db, later);
      && args.key in end.subs
      && var state := end.subs[args.key].state;
      && (state in {MergePending, Merged} ==>
            LegStep(end, args, Enqueue(pr, snap), Quiet) == StepResult(end, ReadQueue(pr, snap)))
      && (ReworkState(state) ==>
            LegStep(end, args, Enqueue(pr, snap), Quiet) == StepResult(end, Done(TransitionRejected)))
  {
    hide RunFrom, Transition, IsAllowed, Head;
    var c := MergemasterCall(args, MergePending, Head(snap));
    RetryAfterAnything(db, c, later);
    NotQueuedFrom(RunFrom(Transition(db, c).db, later).subs[args.key].state);
  }

  lemma NotQueuedFrom(state: State)
    ensures state in {MergePending, Merged} || ReworkState(state) ==> !IsAllowed(state, Mergemaster, MergePending)
    ensures state in {MergePending, Merged} ==> !ReworkState(state)
  {
  }
}
