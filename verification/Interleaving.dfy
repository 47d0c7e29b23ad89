/**
 Every interleaving. Any number of merge invocations and approval commands run
 against one store while coders, reviewers, verifiers, conductor, watchdog and
 registrations act, processes crash, and the pull requests are pushed to, merged
 or closed by anyone at any moment.
 */
module Interleaving {
  import opened Basics
  import opened Fsm
  import opened Gate
  import opened MergeLeg

  datatype Proc = Proc(args: Args, leg: Leg)

  // One bound subtask as `cb approve` read it: the SHA its request named.
  datatype Ask = Ask(key: Key, sha: Sha, approved: Option<Sha>)

  datatype Approval =
    | Resolving(pr: int, asks: set<Ask>)   // rows read, head not yet looked up
    | Granting(todo: set<Ask>)             // head matched these requests

  datatype World = World(
    db: Db, prs: map<int, Pr>, legs: map<nat, Proc>, approvals: map<nat, Approval>)

  datatype Event =
    | LegStart(pid: nat, args: Args)
    | LegAct(pid: nat, obs: Obs, landed: bool)
    | LegCrash(pid: nat)
    | ApproveStart(pid: nat, task: string, pr: int)
    | ApproveLook(pid: nat, head: Option<Sha>)
    | ApproveOne(pid: nat, ask: Ask)
    | ApproveCrash(pid: nat)
    | Act(call: Call)                      // any other actor's transition
    | EnsureRow(key: Key)
    | BindPr(key: Key, number: int)
    | BurnAttempt(key: Key)
    | Register(task: string, row: TaskRow)
    | Outside(prs: map<int, Pr>)           // pushes, merges, closes by others

  // record_approval_grant reads the rows bound to the PR that are not terminal
  // and have a request on record.
  function Asks(db: Db, task: string, pr: int): set<Ask> {
    set k | k in db.subs && k.task == task && db.subs[k].pr == Some(pr)
            && !Terminal(db.subs[k].state) && db.subs[k].requested.Some?
         :: Ask(k, db.subs[k].requested.value, db.subs[k].approved)
  }

  // Only an open PR whose head is the pinned commit can be merged by the tool.
  predicate CanLand(w: World, leg: Leg)
    requires leg.Execute?
  {
    leg.pr in w.prs && w.prs[leg.pr].state == Open && w.prs[leg.pr].head == Some(leg.pinned)
  }

  // gh may report success on a pull request that somebody merged before it.
  predicate AlreadyMerged(w: World, leg: Leg) {
    leg.Execute? && leg.pr in w.prs && w.prs[leg.pr].state == PrMerged
  }

  // An answer the world can give to this action right now.
  predicate Truthful(w: World, leg: Leg, obs: Obs, landed: bool) {
    && Fits(leg, obs)
    && (obs.Saw? && obs.snap.Some? ==>
          (leg.Look? || leg.Resnap?) && leg.pr in w.prs && obs.snap.value == w.prs[leg.pr])
    && (landed ==> leg.Execute? && CanLand(w, leg))
    && (obs.GhOk? ==> landed || AlreadyMerged(w, leg))
  }

  predicate Enabled(w: World, e: Event) {
    match e
    case LegStart(pid, _) => pid !in w.legs
    case LegAct(pid, obs, landed) => pid in w.legs && Truthful(w, w.legs[pid].leg, obs, landed)
    case LegCrash(pid) => pid in w.legs
    case ApproveStart(pid, _, _) => pid !in w.approvals
    case ApproveLook(pid, head) =>
      pid in w.approvals && w.approvals[pid].Resolving?
      && (head.Some? ==> w.approvals[pid].pr in w.prs && head == Head(w.prs[w.approvals[pid].pr]))
    case ApproveOne(pid, ask) =>
      pid in w.approvals && w.approvals[pid].Granting? && ask in w.approvals[pid].todo
    case ApproveCrash(pid) => pid in w.approvals
    case Act(call) => call.next != Merged
    case _ => true
  }

  function Apply(w: World, e: Event): World
    requires Enabled(w, e)
  {
    match e
    case LegStart(pid, args) => w.(legs := w.legs[pid := Proc(args, Start)])
    case LegAct(pid, obs, landed) =>
      var p := w.legs[pid];
      var r := LegStep(w.db, p.args, p.leg, obs);
      World(r.db,
            if landed then w.prs[p.leg.pr := w.prs[p.leg.pr].(state := PrMerged)] else w.prs,
            w.legs[pid := Proc(p.args, r.leg)],
            w.approvals)
    case LegCrash(pid) => w.(legs := w.legs - {pid})
    case ApproveStart(pid, task, pr) =>
      w.(approvals := w.approvals[pid := Resolving(pr, Asks(w.db, task, pr))])
    case ApproveLook(pid, head) =>
      var matching := set a | a in w.approvals[pid].asks && Some(a.sha) == head;
      w.(approvals := w.approvals[pid := Granting(matching)])
    case ApproveOne(pid, ask) =>
      w.(db := if ask.approved == Some(ask.sha) then w.db else RecordGrant(w.db, ask.key, ask.sha),
         approvals := w.approvals[pid := Granting(w.approvals[pid].todo - {ask})])
    case ApproveCrash(pid) => w.(approvals := w.approvals - {pid})
    case Act(call) => w.(db := Transition(w.db, call).db)
    case EnsureRow(key) => w.(db := if key.task in w.db.tasks then Ensure(w.db, key) else w.db)
    case BindPr(key, pr) => w.(db := SetPr(w.db, key, pr))
    case BurnAttempt(key) => w.(db := BumpAttempts(w.db, key))
    case Register(task, row) => w.(db := w.db.(tasks := w.db.tasks[task := row]))
    case Outside(prs) => w.(prs := prs)
  }

  // ── what an event does, as the claims speak of it ───────────────────────

  datatype Pin = Pin(key: Key, sha: Sha)

  // The transition an action of a leg attempts, if it is one.
  function CallOfLeg(args: Args, leg: Leg): Option<Call> {
    match leg
    case Enqueue(_, snap) => Some(MergemasterCall(args, MergePending, Head(snap)))
    case Record(sha, _, _) => Some(MergemasterCall(args, Merged, sha))
    case SendBack(_) => Some(SendBackCall(args))
    case CapBlock => Some(MergemasterCall(args, Blocked, None))
    case Block(_) => Some(MergemasterCall(args, Blocked, None))
    case _ => None
  }

  function CallOf(w: World, e: Event): Option<Call>
    requires Enabled(w, e)
  {
    match e
    case Act(call) => Some(call)
    case LegAct(pid, _, _) => CallOfLeg(w.legs[pid].args, w.legs[pid].leg)
    case _ => None
  }

  // The event enters merge_pending for this subtask at this SHA.
  predicate Queues(w: World, e: Event, pin: Pin) {
    && Enabled(w, e)
    && CallOf(w, e).Some?
    && var c := CallOf(w, e).value;
    && c.key == pin.key && c.next == MergePending && c.sha == Some(pin.sha)
    && Transition(w.db, c).outcome == Applied
  }

  // The event writes the approval grant for this subtask at this SHA.
  predicate Grants(w: World, e: Event, pin: Pin) {
    && Enabled(w, e) && e.ApproveOne?
    && e.ask.key == pin.key && e.ask.sha == pin.sha && e.ask.approved != Some(pin.sha)
  }

  // The tool's own merge lands: this commit is on the base branch now.
  predicate ToolMerges(w: World, e: Event, pin: Pin) {
    && Enabled(w, e) && e.LegAct? && e.landed
    && w.legs[e.pid].args.key == pin.key
    && w.prs[w.legs[e.pid].leg.pr].head == Some(pin.sha)
  }

  function QueuePins(w: World, e: Event): set<Pin> {
    if !Enabled(w, e) || CallOf(w, e).None? then {}
    else
      var c := CallOf(w, e).value;
      if c.next == MergePending && c.sha.Some? && Transition(w.db, c).outcome == Applied
      then {Pin(c.key, c.sha.value)} else {}
  }

  function GrantPins(w: World, e: Event): set<Pin> {
    if Enabled(w, e) && e.ApproveOne? && e.ask.approved != Some(e.ask.sha)
    then {Pin(e.ask.key, e.ask.sha)} else {}
  }

  // ── the invariant ───────────────────────────────────────────────────────
  // `queued` and `granted` are the pins queued and granted so far.

  predicate RowPinned(key: Key, row: SubtaskRow, queued: set<Pin>, granted: set<Pin>) {
    && (row.requested.Some? ==> Pin(key, row.requested.value) in queued)
    && (row.approved.Some? ==> Pin(key, row.approved.value) in granted)
  }

  predicate LogPinned(log: seq<LogRow>, queued: set<Pin>) {
    forall i :: 0 <= i < |log| && log[i].to == MergePending && log[i].sha.Some? ==>
      Pin(log[i].key, log[i].sha.value) in queued
  }

  predicate Waiting(key: Key, snap: Pr, pending: Option<Sha>, queued: set<Pin>) {
    pending.Some? ==> Pin(key, pending.value) in queued && Head(snap) == pending
  }

  predicate LegPinned(key: Key, leg: Leg, queued: set<Pin>, granted: set<Pin>) {
    match leg
    case Bind(_, row) => row.approved.Some? ==> Pin(key, row.approved.value) in granted
    case Look(_, row) => row.approved.Some? ==> Pin(key, row.approved.value) in granted
    case ReadGrant(_, snap, pending) => Waiting(key, snap, pending, queued)
    case Send(_, snap, pending) => Waiting(key, snap, pending, queued)
    case Mark(pending) => pending.Some? ==> Pin(key, pending.value) in queued
    case Execute(_, snap, pinned) => Pin(key, pinned) in granted && Head(snap) == Some(pinned)
    case Resnap(_, pinned, _) => Pin(key, pinned) in granted
    case Record(sha, grant, exit) =>
      Pin(key, grant) in granted && (exit != MergedAfterFailure ==> sha == Some(grant))
    case _ => true
  }

  predicate AsksPinned(asks: set<Ask>, queued: set<Pin>) {
    forall a <- asks :: Pin(a.key, a.sha) in queued
  }

  predicate ApprovalPinned(a: Approval, queued: set<Pin>) {
    AsksPinned(if a.Resolving? then a.asks else a.todo, queued)
  }

  predicate DbPinned(db: Db, queued: set<Pin>, granted: set<Pin>) {
    && (forall key :: key in db.subs ==> RowPinned(key, db.subs[key], queued, granted))
    && LogPinned(db.log, queued)
  }

  predicate Inv(w: World, queued: set<Pin>, granted: set<Pin>) {
    && granted <= queued
    && DbPinned(w.db, queued, granted)
    && (forall pid :: pid in w.legs ==> LegPinned(w.legs[pid].args.key, w.legs[pid].leg, queued, granted))
    && (forall pid :: pid in w.approvals ==> ApprovalPinned(w.approvals[pid], queued))
  }

  lemma PinsGrow(w: World, q: set<Pin>, g: set<Pin>, q': set<Pin>, g': set<Pin>)
    requires Inv(w, q, g) && q <= q' && g <= g' && g' <= q'
    ensures Inv(w, q', g')
  {
    forall key | key in w.db.subs
      ensures RowPinned(key, w.db.subs[key], q', g')
    {
      assert RowPinned(key, w.db.subs[key], q, g);
    }
    forall pid | pid in w.legs
      ensures LegPinned(w.legs[pid].args.key, w.legs[pid].leg, q', g')
    {
      assert LegPinned(w.legs[pid].args.key, w.legs[pid].leg, q, g);
    }
  }

  // A transition keeps every marker; its row, if it queues, is a queued pin.
  lemma TransitionKeepsPins(db: Db, c: Call, q: set<Pin>, g: set<Pin>)
    requires DbPinned(db, q, g)
    requires c.next == MergePending && c.sha.Some? && Transition(db, c).outcome == Applied ==>
               Pin(c.key, c.sha.value) in q
    ensures DbPinned(Transition(db, c).db, q, g)
  {
    hide Decide, Targets, AllMerged;
    var after := Transition(db, c).db;
    forall key | key in after.subs
      ensures RowPinned(key, after.subs[key], q, g)
    {
      if key in db.subs {
        assert RowPinned(key, db.subs[key], q, g);
        assert after.subs[key].requested == db.subs[key].requested;
        assert after.subs[key].approved == db.subs[key].approved;
      } else {
        assert after.subs[key].requested == None && after.subs[key].approved == None;
      }
    }
  }

  lemma {:induction false} PendingIsQueued(log: seq<LogRow>, key: Key, q: set<Pin>)
    requires LogPinned(log, q)
    ensures PendingSha(log, key).Some? ==> Pin(key, PendingSha(log, key).value) in q
  {
    if log != [] {
      assert log[|log| - 1] in log;
      PendingIsQueued(log[..|log| - 1], key, q);
    }
  }

  // The store after one action of a leg.
  lemma {:induction false} LegKeepsDb(w: World, e: Event, q: set<Pin>, g: set<Pin>)
    requires Enabled(w, e) && e.LegAct? && Inv(w, q, g)
    requires QueuePins(w, e) <= q
    ensures DbPinned(Apply(w, e).db, q, g)
  {
    var p := w.legs[e.pid];
    assert LegPinned(p.args.key, p.leg, q, g);
    if CallOfLeg(p.args, p.leg).Some? {
      var c := CallOfLeg(p.args, p.leg).value;
      assert QueuePins(w, e) <= q && CallOf(w, e) == Some(c);
      TransitionKeepsPins(w.db, c, q, g);
      hide Transition;
      assert Apply(w, e).db == Transition(w.db, c).db;
    } else {
      hide Transition;
      if p.args.key in w.db.subs {
        assert RowPinned(p.args.key, w.db.subs[p.args.key], q, g);
      }
    }
  }

  // What the invocation remembers after one action.
  lemma StepKeepsLocals(db: Db, args: Args, leg: Leg, obs: Obs, q: set<Pin>, g: set<Pin>)
    requires Fits(leg, obs) && LegPinned(args.key, leg, q, g)
    requires args.key in db.subs ==> RowPinned(args.key, db.subs[args.key], q, g)
    requires PendingSha(db.log, args.key).Some? ==> Pin(args.key, PendingSha(db.log, args.key).value) in q
    ensures LegPinned(args.key, LegStep(db, args, leg, obs).leg, q, g)
  {
    hide Transition, PendingSha, SetPr, AppendAudit, MarkRequested;
  }

  lemma LegKeepsLocals(w: World, e: Event, q: set<Pin>, g: set<Pin>)
    requires Enabled(w, e) && e.LegAct? && Inv(w, q, g)
    ensures LegPinned(w.legs[e.pid].args.key, Apply(w, e).legs[e.pid].leg, q, g)
  {
    hide LegStep, LegPinned, RowPinned, PendingSha, ApprovalPinned;
    var p := w.legs[e.pid];
    PendingIsQueued(w.db.log, p.args.key, q);
    StepKeepsLocals(w.db, p.args, p.leg, e.obs, q, g);
  }

  lemma AsksArePinned(db: Db, task: string, pr: int, q: set<Pin>, g: set<Pin>)
    requires DbPinned(db, q, g)
    ensures AsksPinned(Asks(db, task, pr), q)
  {
    forall a | a in Asks(db, task, pr)
      ensures Pin(a.key, a.sha) in q
    {
      assert RowPinned(a.key, db.subs[a.key], q, g);
    }
  }

  lemma ApproveKeepsInv(w: World, e: Event, q: set<Pin>, g: set<Pin>)
    requires Enabled(w, e) && e.ApproveOne? && Inv(w, q, g) && GrantPins(w, e) <= g
    ensures Inv(Apply(w, e), q, g)
  {
    var after := Apply(w, e);
    assert ApprovalPinned(w.approvals[e.pid], q);
    forall key | key in after.db.subs
      ensures RowPinned(key, after.db.subs[key], q, g)
    {
      assert RowPinned(key, w.db.subs[key], q, g);
      if key == e.ask.key && e.ask.approved != Some(e.ask.sha) {
        assert Pin(key, e.ask.sha) in GrantPins(w, e);
      }
    }
  }

  // A grant is only ever written for a pin that was queued before.
  lemma GrantsWereQueued(w: World, e: Event, q: set<Pin>, g: set<Pin>)
    requires Enabled(w, e) && Inv(w, q, g)
    ensures GrantPins(w, e) <= q
  {
    if e.ApproveOne? {
      assert ApprovalPinned(w.approvals[e.pid], q);
    }
  }

  lemma {:induction false} StepKeepsInv(w: World, e: Event, q: set<Pin>, g: set<Pin>)
    requires Enabled(w, e) && Inv(w, q, g)
    ensures Inv(Apply(w, e), q + QueuePins(w, e), g + GrantPins(w, e))
  {
    var q', g' := q + QueuePins(w, e), g + GrantPins(w, e);
    GrantsWereQueued(w, e, q, g);
    PinsGrow(w, q, g, q', g');
    match e
    case LegAct(pid, _, _) =>
      LegKeepsDb(w, e, q', g');
      LegKeepsLocals(w, e, q', g');
      var after := Apply(w, e);
      OneLegMoved(w, after.db, after.prs, pid, after.legs[pid], q', g');
    case ApproveOne(_, _) =>
      ApproveKeepsInv(w, e, q', g');
    case ApproveStart(_, task, pr) =>
      AsksArePinned(w.db, task, pr, q', g');
    case ApproveLook(pid, _) =>
      assert ApprovalPinned(w.approvals[pid], q');
    case Act(call) =>
      TransitionKeepsPins(w.db, call, q', g');
    case _ =>
      KeepsMarkers(w, e, q', g');
  }

  // One process moving on, with a store and itself still pinned, is enough.
  lemma OneLegMoved(w: World, db: Db, prs: map<int, Pr>, pid: nat, p: Proc, q: set<Pin>, g: set<Pin>)
    requires Inv(w, q, g) && DbPinned(db, q, g) && LegPinned(p.args.key, p.leg, q, g)
    ensures Inv(World(db, prs, w.legs[pid := p], w.approvals), q, g)
  {
    hide DbPinned, LegPinned, ApprovalPinned;
  }

  // Everything else leaves the markers and the log's queue rows alone.
  lemma KeepsMarkers(w: World, e: Event, q: set<Pin>, g: set<Pin>)
    requires Enabled(w, e) && Inv(w, q, g)
    requires e.LegStart? || e.LegCrash? || e.ApproveCrash? || e.EnsureRow? || e.BindPr?
             || e.BurnAttempt? || e.Register? || e.Outside?
    ensures Inv(Apply(w, e), q, g)
  {
    var after := Apply(w, e);
    forall key | key in after.db.subs
      ensures RowPinned(key, after.db.subs[key], q, g)
    {
      if key in w.db.subs {
        assert RowPinned(key, w.db.subs[key], q, g);
      }
    }
  }

  // ── whole runs ──────────────────────────────────────────────────────────

  predicate Init(w: World) {
    w.db.subs == map[] && w.db.log == [] && w.legs == map[] && w.approvals == map[]
  }

  predicate IsRun(ws: seq<World>, es: seq<Event>) {
    && |ws| == |es| + 1 && Init(ws[0])
    && forall i :: 0 <= i < |es| ==> Enabled(ws[i], es[i]) && ws[i + 1] == Apply(ws[i], es[i])
  }

  function QueuedBy(ws: seq<World>, es: seq<Event>, n: nat): set<Pin>
    requires n <= |es| <= |ws|
  {
    if n == 0 then {} else QueuedBy(ws, es, n - 1) + QueuePins(ws[n - 1], es[n - 1])
  }

  function GrantedBy(ws: seq<World>, es: seq<Event>, n: nat): set<Pin>
    requires n <= |es| <= |ws|
  {
    if n == 0 then {} else GrantedBy(ws, es, n - 1) + GrantPins(ws[n - 1], es[n - 1])
  }

  lemma {:induction false} RunKeepsInv(ws: seq<World>, es: seq<Event>, n: nat)
    requires IsRun(ws, es) && n <= |es|
    ensures Inv(ws[n], QueuedBy(ws, es, n), GrantedBy(ws, es, n))
  {
    hide Inv, QueuePins, GrantPins, Apply, Enabled;
    if n == 0 {
      InitInv(ws[0]);
    } else {
      RunKeepsInv(ws, es, n - 1);
      StepKeepsInv(ws[n - 1], es[n - 1], QueuedBy(ws, es, n - 1), GrantedBy(ws, es, n - 1));
    }
  }

  lemma InitInv(w: World)
    requires Init(w)
    ensures Inv(w, {}, {})
  {
  }

  lemma {:induction false} QueuedHasEvent(ws: seq<World>, es: seq<Event>, n: nat, pin: Pin) returns (i: nat)
    requires n <= |es| <= |ws| && pin in QueuedBy(ws, es, n)
    ensures i < n && Queues(ws[i], es[i], pin)
  {
    hide QueuePins, Queues;
    if pin in QueuedBy(ws, es, n - 1) {
      i := QueuedHasEvent(ws, es, n - 1, pin);
    } else {
      i := n - 1;
      QueuePinIsQueued(ws[i], es[i], pin);
    }
  }

  lemma QueuePinIsQueued(w: World, e: Event, pin: Pin)
    requires pin in QueuePins(w, e)
    ensures Queues(w, e, pin)
  {
    hide Transition, Enabled, CallOf;
  }

  lemma {:induction false} GrantedHasEvent(ws: seq<World>, es: seq<Event>, n: nat, pin: Pin) returns (k: nat)
    requires n <= |es| <= |ws| && pin in GrantedBy(ws, es, n)
    ensures k < n && Grants(ws[k], es[k], pin)
  {
    if pin in GrantedBy(ws, es, n - 1) {
      k := GrantedHasEvent(ws, es, n - 1, pin);
    } else {
      k := n - 1;
      assert pin in GrantPins(ws[k], es[k]);
    }
  }

  // The gate the design asks for, at the moment the subtask was queued.
  predicate GatedAt(w: World, e: Event, pin: Pin) {
    Queues(w, e, pin) && GatePasses(w.db, pin.key, Some(pin.sha))
  }

  // First queued through the gate at this SHA, then granted at this SHA, then `j`.
  ghost predicate EarnedBefore(ws: seq<World>, es: seq<Event>, j: nat, pin: Pin)
    requires j <= |es| <= |ws|
  {
    exists i: nat, k: nat :: i < k < j && GatedAt(ws[i], es[i], pin) && Grants(ws[k], es[k], pin)
  }

  lemma QueuedMeansGated(w: World, e: Event, pin: Pin)
    requires Queues(w, e, pin)
    ensures GatePasses(w.db, pin.key, Some(pin.sha))
  {
    var c := CallOf(w, e).value;
    hide GatePasses, Evaluate;
    EligibleIffGatePasses(Ensure(w.db, c.key), c.key, c.sha);
    GateIgnoresRows(w.db, c.key, c.sha);
  }

  lemma GateIgnoresRows(db: Db, key: Key, sha: Option<Sha>)
    requires key.task in db.tasks
    ensures GatePasses(Ensure(db, key), key, sha) <==> GatePasses(db, key, sha)
  {
  }

  lemma GrantedWasEarned(ws: seq<World>, es: seq<Event>, j: nat, pin: Pin)
    requires IsRun(ws, es) && j <= |es| && pin in GrantedBy(ws, es, j)
    ensures EarnedBefore(ws, es, j, pin)
  {
    hide Inv, Queues, GatePasses, Apply;
    var k := GrantedHasEvent(ws, es, j, pin);
    RunKeepsInv(ws, es, k);
    GrantsWereQueued(ws[k], es[k], QueuedBy(ws, es, k), GrantedBy(ws, es, k));
    assert pin in GrantPins(ws[k], es[k]);
    var i := QueuedHasEvent(ws, es, k, pin);
    QueuedMeansGated(ws[i], es[i], pin);
    assert GatedAt(ws[i], es[i], pin);
  }

  // Whatever commit the tool itself merges, in any interleaving: the subtask had
  // been queued at exactly that SHA with every required verdict pinned to it,
  // and after that a human grant had been recorded for exactly that SHA.
  lemma MergedCommitWasEarned(ws: seq<World>, es: seq<Event>, j: nat, pin: Pin)
    requires IsRun(ws, es) && j < |es| && ToolMerges(ws[j], es[j], pin)
    ensures EarnedBefore(ws, es, j, pin)
  {
    RunKeepsInv(ws, es, j);
    var p := ws[j].legs[es[j].pid];
    assert LegPinned(p.args.key, p.leg, QueuedBy(ws, es, j), GrantedBy(ws, es, j));
    GrantedWasEarned(ws, es, j, pin);
  }

  // Every attempt to record `merged` is a merge invocation holding an earned
  // grant, and off the post-failure path the SHA it records is that grant.
  lemma {:induction false} MergedRowWasEarned(ws: seq<World>, es: seq<Event>, j: nat)
    requires IsRun(ws, es) && j < |es|
    requires CallOf(ws[j], es[j]).Some? && CallOf(ws[j], es[j]).value.next == Merged
    ensures es[j].LegAct? && ws[j].legs[es[j].pid].leg.Record?
    ensures var p := ws[j].legs[es[j].pid];
      && EarnedBefore(ws, es, j, Pin(p.args.key, p.leg.granted))
      && (p.leg.exit != MergedAfterFailure ==> CallOf(ws[j], es[j]).value.sha == Some(p.leg.granted))
  {
    RunKeepsInv(ws, es, j);
    var p := ws[j].legs[es[j].pid];
    assert LegPinned(p.args.key, p.leg, QueuedBy(ws, es, j), GrantedBy(ws, es, j));
    GrantedWasEarned(ws, es, j, Pin(p.args.key, p.leg.granted));
  }

  // In every reachable world the request marker names a SHA the subtask was
  // queued at through the gate, and the grant one that was moreover granted.
  lemma MarkersWereEarned(ws: seq<World>, es: seq<Event>, j: nat, key: Key)
    requires IsRun(ws, es) && j <= |es| && key in ws[j].db.subs
    ensures var row := ws[j].db.subs[key];
      && (row.requested.Some? ==>
            exists i: nat :: i < j && GatedAt(ws[i], es[i], Pin(key, row.requested.value)))
      && (row.approved.Some? ==> EarnedBefore(ws, es, j, Pin(key, row.approved.value)))
  {
    RunKeepsInv(ws, es, j);
    var row := ws[j].db.subs[key];
    assert RowPinned(key, row, QueuedBy(ws, es, j), GrantedBy(ws, es, j));
    if row.requested.Some? {
      var pin := Pin(key, row.requested.value);
      var i := QueuedHasEvent(ws, es, j, pin);
      QueuedMeansGated(ws[i], es[i], pin);
      assert GatedAt(ws[i], es[i], pin);
    }
    if row.approved.Some? {
      GrantedWasEarned(ws, es, j, Pin(key, row.approved.value));
    }
  }
}
