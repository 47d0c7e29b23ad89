/**
 `_cmd_merge` in the form the program has it: one pass of reads, store updates
 and external effects, re-reading the row between them. Each method is proved to
 end exactly where the machine of module MergeLeg ends from the same point.
 */
module MergeCommand {
  import opened Basics
  import opened Fsm
  import opened Gate
  import opened StateStore
  import opened MergeLeg

  // The pull-request host as the leg sees it: queries and the pinned merge.
  class PullRequests {
    var prs: map<int, Pr>
    const reachable: bool
    const delivers: bool
    const gh: GhBehaviour

    constructor (prs: map<int, Pr>, reachable: bool, delivers: bool, gh: GhBehaviour)
      ensures World() == Env(prs, reachable, delivers, gh)
    {
      this.prs, this.reachable, this.delivers, this.gh := prs, reachable, delivers, gh;
    }

    function World(): Env
      reads this
    {
      Env(prs, reachable, delivers, gh)
    }

    method View(pr: int) returns (snap: Option<Pr>)
      ensures snap == Snapshot(World(), pr)
    {
      snap := if reachable && pr in prs then Some(prs[pr]) else None;
    }

    // gh pr merge --match-head-commit <pinned>
    method Merge(pr: int, snap: Pr, pinned: Sha) returns (answer: Obs)
      modifies this`prs
      ensures answer == Answer(old(World()), Execute(pr, snap, pinned))
      ensures World() == AfterAnswer(old(World()), Execute(pr, snap, pinned))
    {
      if !(pr in prs && prs[pr].state == Open && prs[pr].head == Some(pinned)) {
        return GhFailed(false);
      }
      if !gh.Refuses? {
        prs := prs[pr := prs[pr].(state := PrMerged)];
      }
      answer := if gh.Faithful? then GhOk else GhFailed(gh.conflictText);
    }
  }

  lemma FinishStep(args: Args, c: Config)
    requires !c.leg.Done?
    ensures Finish(args, c) == Finish(args, Next(args, c))
  {
  }

  // _transition_or_fail
  method TransitionOrFail(store: Store, call: Call, exit: Exit) returns (code: Exit)
    modifies store
    ensures WriteStep(old(store.Snapshot()), call, exit) == StepResult(store.Snapshot(), Done(code))
  {
    var outcome := store.Transition(call);
    if outcome == Applied || outcome == NoOp {
      return exit;
    }
    return TransitionRejected;
  }

  // _needs_rebase_or_blocked: send back, or escalate at the rebase-round cap.
  method NeedsRebaseOrBlocked(store: Store, hub: PullRequests, args: Args, exit: Exit) returns (code: Exit)
    modifies store
    ensures Finish(args, Config(old(store.Snapshot()), hub.World(), SendBackRead(exit)))
         == Config(store.Snapshot(), hub.World(), Done(code))
  {
    ghost var c := Config(store.Snapshot(), hub.World(), SendBackRead(exit));
    FinishStep(args, c);
    FinishStep(args, Next(args, c));
    var sub := store.GetSubtask(args.key);
    var rounds := if sub.Some? then sub.value.rebaseRounds else 0;
    if rounds >= args.rebaseCap {
      code := TransitionOrFail(store, MergemasterCall(args, Blocked, None), RebaseCapExit);
    } else {
      code := TransitionOrFail(store, SendBackCall(args), exit);
    }
  }

  method BlockSubtask(store: Store, hub: PullRequests, args: Args, exit: Exit) returns (code: Exit)
    modifies store
    ensures Finish(args, Config(old(store.Snapshot()), hub.World(), Block(exit)))
         == Config(store.Snapshot(), hub.World(), Done(code))
  {
    FinishStep(args, Config(store.Snapshot(), hub.World(), Block(exit)));
    code := TransitionOrFail(store, MergemasterCall(args, Blocked, None), exit);
  }

  method RecordMerged(store: Store, hub: PullRequests, args: Args, sha: Option<Sha>, granted: Sha, exit: Exit)
    returns (code: Exit)
    modifies store
    ensures Finish(args, Config(old(store.Snapshot()), hub.World(), Record(sha, granted, exit)))
         == Config(store.Snapshot(), hub.World(), Done(code))
  {
    FinishStep(args, Config(store.Snapshot(), hub.World(), Record(sha, granted, exit)));
    code := TransitionOrFail(store, MergemasterCall(args, Merged, sha), exit);
  }

  // (g) and (h): execute pinned to the granted SHA; on failure look again
  // before classifying.
  method ExecuteMerge(store: Store, hub: PullRequests, args: Args, pr: int, snap: Pr, pending: Sha)
    returns (code: Exit)
    modifies store, hub
    ensures Finish(args, Config(old(store.Snapshot()), old(hub.World()), Execute(pr, snap, pending)))
         == Config(store.Snapshot(), hub.World(), Done(code))
  {
    FinishStep(args, Config(store.Snapshot(), hub.World(), Execute(pr, snap, pending)));
    var answer := hub.Merge(pr, snap, pending);
    if answer.GhOk? {
      code := RecordMerged(store, hub, args, Head(snap), pending, MergedNow);
      return;
    }
    FinishStep(args, Config(store.Snapshot(), hub.World(), Resnap(pr, pending, answer.conflictText)));
    var resnap := hub.View(pr);
    if resnap.None? {
      return PrQueryFailed;
    }
    if resnap.value.state == PrMerged {
      code := RecordMerged(store, hub, args, Head(resnap.value), pending, MergedAfterFailure);
    } else if Head(resnap.value) != Some(pending) {
      code := NeedsRebaseOrBlocked(store, hub, args, ShaMoved);
    } else if resnap.value.mergeability == Conflicting || answer.conflictText {
      code := NeedsRebaseOrBlocked(store, hub, args, Conflicted);
    } else {
      code := BlockSubtask(store, hub, args, MergeFailed);
    }
  }

  // (e): not granted yet - request approval once per queued SHA.
  method AwaitApproval(store: Store, hub: PullRequests, args: Args, pr: int, snap: Pr, pending: Option<Sha>)
    returns (code: Exit)
    modifies store
    ensures Finish(args, Config(old(store.Snapshot()), hub.World(), Send(pr, snap, pending)))
         == Config(store.Snapshot(), hub.World(), Done(code))
  {
    FinishStep(args, Config(store.Snapshot(), hub.World(), Send(pr, snap, pending)));
    if !hub.delivers {
      return AwaitingSendFailed;
    }
    FinishStep(args, Config(store.Snapshot(), hub.World(), Mark(pending)));
    store.MarkMergeApprovalRequested(args.key, pending);
    return AwaitingSent;
  }

  // (d) to (f): the re-checks on a queued subtask.
  method MergeQueued(store: Store, hub: PullRequests, args: Args, pr: int, snap: Pr) returns (code: Exit)
    modifies store, hub
    ensures Finish(args, Config(old(store.Snapshot()), old(hub.World()), ReadQueue(pr, snap)))
         == Config(store.Snapshot(), hub.World(), Done(code))
  {
    FinishStep(args, Config(store.Snapshot(), hub.World(), ReadQueue(pr, snap)));
    var pending := store.MergePendingSha(args.key);
    if pending.Some? && Head(snap) != pending {
      code := NeedsRebaseOrBlocked(store, hub, args, ShaMoved);
      return;
    }
    if snap.state != Open {
      code := BlockSubtask(store, hub, args, PrNotOpen);
      return;
    }
    FinishStep(args, Config(store.Snapshot(), hub.World(), ReadGrant(pr, snap, pending)));
    var sub := store.GetSubtask(args.key);
    var row := if sub.Some? then sub.value else FRESH_ROW;
    if !(row.approved.Some? && pending.Some? && row.approved == pending) {
      if row.requested == pending {
        return AwaitingAlready;
      }
      code := AwaitApproval(store, hub, args, pr, snap, pending);
      return;
    }
    if snap.mergeability == Conflicting {
      code := NeedsRebaseOrBlocked(store, hub, args, Conflicted);
      return;
    }
    code := ExecuteMerge(store, hub, args, pr, snap, pending.value);
  }

  // (b) and (c): reconcile a PR found merged, or take the gated queue edge.
  method MergeBound(store: Store, hub: PullRequests, args: Args, pr: int, row: SubtaskRow) returns (code: Exit)
    modifies store, hub
    ensures Finish(args, Config(old(store.Snapshot()), old(hub.World()), Look(pr, row)))
         == Config(store.Snapshot(), hub.World(), Done(code))
  {
    hide Transition, ShaShaped;
    FinishStep(args, Config(store.Snapshot(), hub.World(), Look(pr, row)));
    var seen := hub.View(pr);
    if seen.None? {
      return PrQueryFailed;
    }
    var snap := seen.value;
    if row.state == MergePending {
      if snap.state == PrMerged {
        if row.approved.Some? && row.approved == Head(snap) {
          code := RecordMerged(store, hub, args, Head(snap), row.approved.value, Reconciled);
          return;
        }
        FinishStep(args, Config(store.Snapshot(), hub.World(), ReportUngated(pr, Head(snap), row.approved)));
        store.AppendAuditEvent(UngatedExternalMerge(args.key, pr, Head(snap), row.approved));
        code := BlockSubtask(store, hub, args, UngatedExternal);
        return;
      }
    } else {
      FinishStep(args, Config(store.Snapshot(), hub.World(), Enqueue(pr, snap)));
      var outcome := store.Transition(MergemasterCall(args, MergePending, Head(snap)));
      if outcome.NotEligible? {
        if ShaShaped(outcome.reasons) {
          code := NeedsRebaseOrBlocked(store, hub, args, StaleVerdicts);
          return;
        }
        return NotEligibleExit;
      }
      if outcome != NoOp && outcome != Applied {
        return TransitionRejected;
      }
    }
    code := MergeQueued(store, hub, args, pr, snap);
  }

  method CmdMerge(store: Store, hub: PullRequests, args: Args) returns (code: Exit)
    modifies store, hub
    ensures Finish(args, Config(old(store.Snapshot()), old(hub.World()), Start))
         == Config(store.Snapshot(), hub.World(), Done(code))
  {
    FinishStep(args, Config(store.Snapshot(), hub.World(), Start));
    if args.key.task !in store.tasks {
      return NoActiveTask;
    }
    var subtask := store.GetSubtask(args.key);
    var row := if subtask.Some? then subtask.value else FRESH_ROW;
    if row.state == Merged {
      return AlreadyMerged;
    }
    if !EntryState(row.state) {
      return BadEntryState;
    }
    var number := if args.pr.Some? then args.pr else row.pr;
    if number.None? {
      return NoPrNumber;
    }
    if args.pr.Some? && row.pr.Some? && row.pr != args.pr {
      return PrRebind;
    }
    if args.pr.Some? && row.pr.None? {
      FinishStep(args, Config(store.Snapshot(), hub.World(), Bind(number.value, row)));
      store.SetPrNumber(args.key, number.value);
    }
    code := MergeBound(store, hub, args, number.value, row);
  }

  // ── cb approve: the grant half ──────────────────────────────────────────

  datatype ApproveExit =
    | NoTask | NothingBound | NothingRequested | HeadUnreadable | HeadMoved | Recorded

  predicate BoundRow(key: Key, row: SubtaskRow, task: string, pr: int) {
    key.task == task && row.pr == Some(pr) && !Terminal(row.state)
  }

  // The rows a grant may reach: bound, not terminal, and with a request for
  // exactly the live head.
  predicate RequestedAt(key: Key, row: SubtaskRow, task: string, pr: int, head: Option<Sha>) {
    BoundRow(key, row, task, pr) && row.requested.Some? && row.requested == head
  }

  function GrantedRow(key: Key, row: SubtaskRow, task: string, pr: int, head: Option<Sha>): SubtaskRow {
    if RequestedAt(key, row, task, pr, head) then row.(approved := row.requested) else row
  }

  // A grant not on record before leaves its event.
  predicate GrantsAudited(before: map<Key, SubtaskRow>, granted: set<Key>, audit: seq<AuditRow>) {
    forall k <- granted :: k in before && before[k].requested.Some? && before[k].approved != before[k].requested ==>
      ApprovalGrant(k, before[k].requested.value) in audit
  }

  // One row at a time, over the rows a request was found for.
  method GrantEach(store: Store, matching: set<Key>)
    requires forall k <- matching :: k in store.subs && store.subs[k].requested.Some?
    modifies store
    ensures store.tasks == old(store.tasks) && store.log == old(store.log) && old(store.audit) <= store.audit
    ensures store.subs.Keys == old(store.subs).Keys
    ensures GrantsAudited(old(store.subs), matching, store.audit)
    ensures forall k :: k in store.subs ==>
      store.subs[k] == var row := old(store.subs)[k]; if k in matching then row.(approved := row.requested) else row
  {
    var todo := matching;
    while todo != {}
      invariant todo <= matching
      invariant store.tasks == old(store.tasks) && store.log == old(store.log) && old(store.audit) <= store.audit
      invariant store.subs.Keys == old(store.subs).Keys
      invariant GrantsAudited(old(store.subs), matching - todo, store.audit)
      invariant forall k :: k in store.subs ==>
        store.subs[k] == var row := old(store.subs)[k];
                         if k in matching && k !in todo then row.(approved := row.requested) else row
      decreases |todo|
    {
      var k :| k in todo;
      if store.subs[k].approved != store.subs[k].requested {
        store.RecordMergeApproval(k, store.subs[k].requested.value);
      }
      todo := todo - {k};
    }
  }

  // The head a lookup finds.
  function HeadSeen(env: Env, pr: int): Option<Sha> {
    if Snapshot(env, pr).Some? then Head(Snapshot(env, pr).value) else None
  }

  // Some unfinished row is bound to the pull request.
  predicate AnyBound(subs: map<Key, SubtaskRow>, task: string, pr: int) {
    exists k :: k in subs && BoundRow(k, subs[k], task, pr)
  }

  // One of them has a request on record.
  predicate AnyRequested(subs: map<Key, SubtaskRow>, task: string, pr: int) {
    exists k :: k in subs && BoundRow(k, subs[k], task, pr) && subs[k].requested.Some?
  }

  // And one of the requests is for this head.
  predicate AnyRequestedAt(subs: map<Key, SubtaskRow>, task: string, pr: int, head: Option<Sha>) {
    exists k :: k in subs && RequestedAt(k, subs[k], task, pr, head)
  }

  lemma FewerAndFewer(subs: map<Key, SubtaskRow>, task: string, pr: int, head: Option<Sha>)
    ensures AnyRequestedAt(subs, task, pr, head) ==> head.Some? && AnyRequested(subs, task, pr)
    ensures AnyRequested(subs, task, pr) ==> AnyBound(subs, task, pr)
  {
    if k :| k in subs && RequestedAt(k, subs[k], task, pr, head) {
      assert BoundRow(k, subs[k], task, pr) && subs[k].requested.Some?;
    }
    if k :| k in subs && BoundRow(k, subs[k], task, pr) && subs[k].requested.Some? {
      assert BoundRow(k, subs[k], task, pr);
    }
  }

  // What the three selections below come to.
  lemma SelectionsAre(subs: map<Key, SubtaskRow>, task: string, pr: int, head: Option<Sha>, bound: set<Key>,
                      requested: set<Key>, matching: set<Key>)
    requires bound == set k | k in subs && BoundRow(k, subs[k], task, pr)
    requires requested == set k | k in bound && subs[k].requested.Some?
    requires matching == set k | k in requested && subs[k].requested == head
    ensures bound == {} <==> !AnyBound(subs, task, pr)
    ensures requested == {} <==> !AnyRequested(subs, task, pr)
    ensures matching == {} <==> !AnyRequestedAt(subs, task, pr, head)
    ensures forall k :: k in matching <==> k in subs && RequestedAt(k, subs[k], task, pr, head)
  {
    if k :| k in bound { assert BoundRow(k, subs[k], task, pr); }
    if k :| k in subs && BoundRow(k, subs[k], task, pr) { assert k in bound; }
    if k :| k in requested { assert BoundRow(k, subs[k], task, pr); }
    if k :| k in subs && BoundRow(k, subs[k], task, pr) && subs[k].requested.Some? { assert k in requested; }
    assert forall k :: k in matching <==> k in subs && RequestedAt(k, subs[k], task, pr, head);
    if k :| k in matching { assert RequestedAt(k, subs[k], task, pr, head); }
    if k :| k in subs && RequestedAt(k, subs[k], task, pr, head) { assert k in matching; }
  }

  // record_approval_grant: the grant goes to the SHA the request named, and
  // only while the live head still is that SHA. It is recorded exactly when some
  // unfinished row bound to the pull request asked for the live head, and each
  // refusal has its own reason.
  method RecordApprovalGrant(store: Store, hub: PullRequests, task: string, pr: int) returns (exit: ApproveExit)
    modifies store
    ensures exit != Recorded ==> store.Snapshot() == old(store.Snapshot())
    ensures exit == Recorded ==>
      && store.tasks == old(store.tasks) && store.log == old(store.log)
      && store.subs.Keys == old(store.subs).Keys && old(store.audit) <= store.audit
      && forall k :: k in store.subs ==>
           store.subs[k] == GrantedRow(k, old(store.subs)[k], task, pr, HeadSeen(hub.World(), pr))
    ensures var known, subs, head := task in old(store.tasks), old(store.subs), HeadSeen(hub.World(), pr);
      && (exit == Recorded <==> known && AnyRequestedAt(subs, task, pr, head))
      && (exit == NoTask <==> !known)
      && (exit == NothingBound <==> known && !AnyBound(subs, task, pr))
      && (exit == NothingRequested <==> known && AnyBound(subs, task, pr) && !AnyRequested(subs, task, pr))
      && (exit == HeadUnreadable <==> known && AnyRequested(subs, task, pr) && head.None?)
      && (exit == HeadMoved <==>
            known && AnyRequested(subs, task, pr) && head.Some? && !AnyRequestedAt(subs, task, pr, head))
  {
    hide Finish, LegStep, AnyBound, AnyRequested, AnyRequestedAt, RequestedAt, Head, GrantsAudited;
    FewerAndFewer(store.subs, task, pr, HeadSeen(hub.World(), pr));
    if task !in store.tasks {
      return NoTask;
    }
    var bound := set k | k in store.subs && BoundRow(k, store.subs[k], task, pr);
    var requested := set k | k in bound && store.subs[k].requested.Some?;
    ghost var head' := HeadSeen(hub.World(), pr);
    SelectionsAre(store.subs, task, pr, head', bound, requested,
                  set k | k in requested && store.subs[k].requested == head');
    hide BoundRow;
    if bound == {} {
      return NothingBound;
    }
    if requested == {} {
      return NothingRequested;
    }
    var seen := hub.View(pr);
    var head := if seen.Some? then Head(seen.value) else None;
    if head.None? {
      return HeadUnreadable;
    }
    var matching := set k | k in requested && store.subs[k].requested == head;
    if matching == {} {
      return HeadMoved;
    }
    GrantEach(store, matching);
    return Recorded;
  }
}
