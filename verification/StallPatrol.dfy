/**
 Mechanical progress of one subtask (agents/watchdog.py): drift of an approved
 head, the backstop re-nudges that hold a patrol back, and the stall counter
 over reads that may each fail.
 */
module StallPatrol {
  import opened Basics
  import opened Fsm
  import opened StateStore

  datatype Settings = Settings(
    maxPhaseVisits: nat, backstopMax: nat, backstopSeconds: int, advanceMax: nat, advanceSeconds: int)

  // Audit rows of one subtask, oldest first.
  datatype Marker =
    | Grant(sha: Sha, ts: int)
    | BackstopNudge(sha: Sha, ts: int)
    | AdvanceNudge(ts: int)

  // The row as listed for this patrol; `entered` is its updated_at.
  datatype Sub = Sub(state: State, approved: Option<Sha>, branch: bool, pr: bool, entered: int)

  // What the world answers during one patrol. A read that failed is None.
  // `landed`: an escalation tried now is not deferred and takes effect.
  datatype Sight = Sight(
    head: Option<Sha>, prTs: Option<int>, transitionOk: bool, transitionTs: Option<int>,
    now: int, stamp: int, delivered: bool, landed: bool)

  datatype Health = Health(visits: nat, lastHead: string, lastTs: Option<int>, escalated: bool, noData: nat)

  const NEW_HEALTH := Health(0, "", None, false, 0)

  // ── the two re-nudge rungs ──────────────────────────────────────────────

  datatype Rung = Rung(owns: bool, fired: bool)

  function Nudges(rows: seq<Marker>, sha: Sha): nat {
    if rows == [] then 0
    else
      var last := rows[|rows| - 1];
      Nudges(rows[..|rows| - 1], sha) + if last.BackstopNudge? && last.sha == sha then 1 else 0
  }

  function NewestNudge(rows: seq<Marker>, sha: Sha): Option<int> {
    if rows == [] then None
    else
      var last := rows[|rows| - 1];
      if last.BackstopNudge? && last.sha == sha then Some(last.ts) else NewestNudge(rows[..|rows| - 1], sha)
  }

  function NewestGrant(rows: seq<Marker>, sha: Sha): Option<int> {
    if rows == [] then None
    else
      var last := rows[|rows| - 1];
      if last.Grant? && last.sha == sha then Some(last.ts) else NewestGrant(rows[..|rows| - 1], sha)
  }

  function Due(anchor: int, window: int, s: Sight): Rung {
    if s.now - anchor < window then Rung(true, false) else Rung(true, s.delivered)
  }

  function Backstop(rows: seq<Marker>, sha: Sha, cfg: Settings, s: Sight): (r: Rung)
    ensures r.fired ==> r.owns && s.delivered
  {
    if NewestGrant(rows, sha).None? || Nudges(rows, sha) >= cfg.backstopMax then Rung(false, false)
    else
      var nudged := NewestNudge(rows, sha);
      Due(if nudged.Some? then nudged.value else NewestGrant(rows, sha).value, cfg.backstopSeconds, s)
  }

  predicate SinceEntry(m: Marker, entered: int) {
    m.AdvanceNudge? && m.ts >= entered
  }

  function Advances(rows: seq<Marker>, entered: int): nat {
    if rows == [] then 0
    else Advances(rows[..|rows| - 1], entered) + if SinceEntry(rows[|rows| - 1], entered) then 1 else 0
  }

  function NewestAdvance(rows: seq<Marker>, entered: int): Option<int> {
    if rows == [] then None
    else if SinceEntry(rows[|rows| - 1], entered) then Some(rows[|rows| - 1].ts)
    else NewestAdvance(rows[..|rows| - 1], entered)
  }

  function Advance(rows: seq<Marker>, entered: int, cfg: Settings, s: Sight): (r: Rung)
    ensures r.fired ==> r.owns && s.delivered
  {
    if Advances(rows, entered) >= cfg.advanceMax then Rung(false, false)
    else
      var nudged := NewestAdvance(rows, entered);
      Due(if nudged.Some? then nudged.value else entered, cfg.advanceSeconds, s)
  }

  // ── one patrol, as a function ───────────────────────────────────────────

  datatype Kind = Drift | Renudge | NoData | Progress | Stuck

  datatype Mark = Mark(kind: Kind, attempted: bool, landed: bool)

  datatype Watched = Watched(health: Option<Health>, rows: seq<Marker>)

  datatype Step = Step(after: Watched, mark: Mark)

  function Head(sub: Sub, s: Sight): Option<Sha> {
    if sub.branch then s.head else None
  }

  function PrTs(sub: Sub, s: Sight): Option<int> {
    if sub.pr then s.prTs else None
  }

  function LatestTs(sub: Sub, s: Sight): Option<int> {
    var p := PrTs(sub, s);
    var t := if s.transitionOk then s.transitionTs else None;
    if p.None? then t else if t.None? then p else Some(Max(p.value, t.value))
  }

  predicate Drifted(sub: Sub, s: Sight) {
    sub.state == MergePending && sub.approved.Some? && sub.approved.value != ""
    && Head(sub, s).Some? && Head(sub, s) != sub.approved
  }

  // The rung that owns this patrol, if one does.
  function Owner(rows: seq<Marker>, sub: Sub, cfg: Settings, s: Sight): Rung {
    if sub.state == MergePending && sub.approved.Some? && Head(sub, s) == sub.approved && cfg.backstopMax > 0
    then Backstop(rows, sub.approved.value, cfg, s)
    else if sub.state == AcceptancePassed && cfg.advanceMax > 0
    then Advance(rows, sub.entered, cfg, s)
    else Rung(false, false)
  }

  function Fired(sub: Sub, s: Sight): Marker {
    if sub.state == MergePending && sub.approved.Some?
    then BackstopNudge(sub.approved.value, s.stamp) else AdvanceNudge(s.stamp)
  }

  predicate AllReadsFailed(sub: Sub, s: Sight) {
    !s.transitionOk && (sub.branch ==> s.head.None?) && (sub.pr ==> s.prTs.None?)
  }

  predicate Newer(h: Health, sub: Sub, s: Sight) {
    || (Head(sub, s).Some? && Head(sub, s).value != h.lastHead)
    || (LatestTs(sub, s).Some? && (h.lastTs.None? || LatestTs(sub, s).value > h.lastTs.value))
  }

  // The baselines follow the newest observation, even back in time.
  function Rebased(h: Health, sub: Sub, s: Sight): Health {
    h.(lastHead := if Head(sub, s).Some? then Head(sub, s).value else h.lastHead,
       lastTs := if LatestTs(sub, s).Some? then LatestTs(sub, s) else h.lastTs,
       noData := 0)
  }

  function Measure(h: Health, sub: Sub, cfg: Settings, s: Sight): (Health, Mark) {
    if AllReadsFailed(sub, s) then (h.(noData := h.noData + 1), Mark(NoData, false, false))
    else
      var r := Rebased(h, sub, s);
      if Newer(h, sub, s) then (r.(visits := 0, escalated := false), Mark(Progress, false, false))
      else
        var due := h.visits + 1 >= cfg.maxPhaseVisits && !h.escalated;
        (r.(visits := h.visits + 1, escalated := h.escalated || (due && s.landed)),
         Mark(Stuck, due, due && s.landed))
  }

  function Visit(w: Watched, sub: Sub, cfg: Settings, s: Sight): Step {
    if Drifted(sub, s) then Step(w, Mark(Drift, false, false))
    else
      var rung := Owner(w.rows, sub, cfg, s);
      if rung.owns then
        Step(Watched(if w.health.Some? then Some(w.health.value.(visits := 0)) else None,
                     if rung.fired then w.rows + [Fired(sub, s)] else w.rows),
             Mark(Renudge, false, false))
      else
        var m := Measure(if w.health.Some? then w.health.value else NEW_HEALTH, sub, cfg, s);
        Step(Watched(Some(m.0), w.rows), m.1)
  }

  // ── what a patrol asks of the state machine ─────────────────────────────

  // Under the default caps, whatever caps the legs are configured with.
  function DriftCall(key: Key): Call {
    Call(key, NeedsRebase, Mergemaster, DEFAULT_CAPS, None)
  }

  function BlockCall(key: Key): Call {
    Call(key, Blocked, Watchdog, DEFAULT_CAPS, None)
  }

  // Rejections are logged and otherwise ignored.
  function StoreAfter(db: Db, key: Key, mark: Mark): Db {
    if mark.kind == Drift then Transition(db, DriftCall(key)).db
    else if mark.landed then Transition(db, BlockCall(key)).db
    else db
  }

  // ── the daemon ──────────────────────────────────────────────────────────

  class StallWatch {
    var health: map<Key, Health>
    var audit: map<Key, seq<Marker>>

    constructor ()
      ensures health == map[] && audit == map[]
    {
      health, audit := map[], map[];
    }

    function Rows(key: Key): seq<Marker>
      reads this
    {
      if key in audit then audit[key] else []
    }

    function View(key: Key): Watched
      reads this
    {
      Watched(if key in health then Some(health[key]) else None, Rows(key))
    }

    // _maybe_backstop_renudge, newest audit row first.
    method MaybeBackstopRenudge(key: Key, sha: Sha, cfg: Settings, s: Sight) returns (owns: bool)
      modifies this`audit
      ensures var rung := Backstop(old(Rows(key)), sha, cfg, s);
        && owns == rung.owns
        && audit == if rung.fired then old(audit)[key := old(Rows(key)) + [BackstopNudge(sha, s.stamp)]] else old(audit)
    {
      var rows := Rows(key);
      var grantTs: Option<int>, lastNudgeTs: Option<int>, renudges := None, None, 0;
      var i := |rows|;
      assert rows[..i] == rows;
      while i > 0
        invariant 0 <= i <= |rows|
        invariant Nudges(rows, sha) == renudges + Nudges(rows[..i], sha)
        invariant NewestGrant(rows, sha) == if grantTs.Some? then grantTs else NewestGrant(rows[..i], sha)
        invariant NewestNudge(rows, sha) == if lastNudgeTs.Some? then lastNudgeTs else NewestNudge(rows[..i], sha)
      {
        i := i - 1;
        assert rows[..i + 1][..i] == rows[..i];
        match rows[i] {
          case Grant(granted, ts) =>
            if granted == sha && grantTs.None? { grantTs := Some(ts); }
          case BackstopNudge(nudged, ts) =>
            if nudged == sha {
              renudges := renudges + 1;
              if lastNudgeTs.None? { lastNudgeTs := Some(ts); }
            }
          case AdvanceNudge(_) =>
        }
      }
      if grantTs.None? || renudges >= cfg.backstopMax {
        return false;
      }
      var anchor := if lastNudgeTs.Some? then lastNudgeTs.value else grantTs.value;
      if s.now - anchor < cfg.backstopSeconds || !s.delivered {
        return true;
      }
      audit := audit[key := rows + [BackstopNudge(sha, s.stamp)]];
      return true;
    }

    // _maybe_acceptance_advance_renudge
    method MaybeAdvanceRenudge(key: Key, entered: int, cfg: Settings, s: Sight) returns (owns: bool)
      modifies this`audit
      ensures var rung := Advance(old(Rows(key)), entered, cfg, s);
        && owns == rung.owns
        && audit == if rung.fired then old(audit)[key := old(Rows(key)) + [AdvanceNudge(s.stamp)]] else old(audit)
    {
      var rows := Rows(key);
      var lastNudgeTs: Option<int>, nudges := None, 0;
      var i := |rows|;
      assert rows[..i] == rows;
      while i > 0
        invariant 0 <= i <= |rows|
        invariant Advances(rows, entered) == nudges + Advances(rows[..i], entered)
        invariant NewestAdvance(rows, entered)
               == if lastNudgeTs.Some? then lastNudgeTs else NewestAdvance(rows[..i], entered)
      {
        i := i - 1;
        assert rows[..i + 1][..i] == rows[..i];
        if rows[i].AdvanceNudge? && rows[i].ts >= entered {
          nudges := nudges + 1;
          if lastNudgeTs.None? { lastNudgeTs := Some(rows[i].ts); }
        }
      }
      if nudges >= cfg.advanceMax {
        return false;
      }
      var anchor := if lastNudgeTs.Some? then lastNudgeTs.value else entered;
      if s.now - anchor < cfg.advanceSeconds || !s.delivered {
        return true;
      }
      audit := audit[key := rows + [AdvanceNudge(s.stamp)]];
      return true;
    }

    // _check_one_subtask, with the transitions of _on_merge_pending_sha_drift and
    // _send_blocked_escalation.
    method CheckOneSubtask(store: Store, key: Key, sub: Sub, cfg: Settings, s: Sight) returns (mark: Mark)
      modifies this, store
      ensures var step := Visit(old(View(key)), sub, cfg, s);
        mark == step.mark && View(key) == step.after
      ensures store.Snapshot() == StoreAfter(old(store.Snapshot()), key, mark)
      ensures forall k :: k != key ==> View(k) == old(View(k))
    {
      mark := Assess(key, sub, cfg, s);
      if mark.kind == Drift {
        var outcome := store.Transition(DriftCall(key));
      } else if mark.landed {
        var outcome := store.Transition(BlockCall(key));
      }
    }

    // Everything of _check_one_subtask but the two transitions.
    method Assess(key: Key, sub: Sub, cfg: Settings, s: Sight) returns (mark: Mark)
      modifies this
      ensures var step := Visit(old(View(key)), sub, cfg, s);
        mark == step.mark && View(key) == step.after
      ensures forall k :: k != key ==> View(k) == old(View(k))
    {
      hide Backstop, Advance, Measure;
      var attempted, failed := 0, 0;
      var head: Option<Sha> := None;
      if sub.branch {
        attempted := attempted + 1;
        head := s.head;
        if head.None? { failed := failed + 1; }
      }
      var granted := sub.state == MergePending && sub.approved.Some? && sub.approved.value != "";
      if granted && head.Some? && head != sub.approved {
        return Mark(Drift, false, false);
      }
      var owned := false;
      if sub.state == MergePending && sub.approved.Some? && head == sub.approved && cfg.backstopMax > 0 {
        owned := MaybeBackstopRenudge(key, sub.approved.value, cfg, s);
      } else if sub.state == AcceptancePassed && cfg.advanceMax > 0 {
        owned := MaybeAdvanceRenudge(key, sub.entered, cfg, s);
      }
      if owned {
        if key in health {
          health := health[key := health[key].(visits := 0)];
        }
        return Mark(Renudge, false, false);
      }
      var prTs: Option<int> := None;
      if sub.pr {
        attempted := attempted + 1;
        prTs := s.prTs;
        if prTs.None? { failed := failed + 1; }
      }
      attempted := attempted + 1;
      var transitionTs := if s.transitionOk then s.transitionTs else None;
      if !s.transitionOk { failed := failed + 1; }
      var latest := if prTs.None? then transitionTs
                    else if transitionTs.None? then prTs
                    else Some(Max(prTs.value, transitionTs.value));
      mark := Record(key, sub, cfg, s, head, latest, attempted == failed);
    }

    // The counting half of _check_one_subtask.
    method Record(
        key: Key, sub: Sub, cfg: Settings, s: Sight, head: Option<Sha>, latest: Option<int>, nothingRead: bool)
      returns (mark: Mark)
      requires head == Head(sub, s) && latest == LatestTs(sub, s) && nothingRead == AllReadsFailed(sub, s)
      modifies this`health
      ensures var m := Measure(if key in old(health) then old(health)[key] else NEW_HEALTH, sub, cfg, s);
        mark == m.1 && health == old(health)[key := m.0]
    {
      var h := if key in health then health[key] else NEW_HEALTH;
      if nothingRead {
        health := health[key := h.(noData := h.noData + 1)];
        return Mark(NoData, false, false);
      }
      h := h.(noData := 0);
      var progressed := false;
      if head.Some? && head.value != h.lastHead {
        progressed := true;
      }
      if latest.Some? && (h.lastTs.None? || latest.value > h.lastTs.value) {
        progressed := true;
      }
      if head.Some? { h := h.(lastHead := head.value); }
      if latest.Some? { h := h.(lastTs := latest); }
      if progressed {
        health := health[key := h.(visits := 0, escalated := false)];
        return Mark(Progress, false, false);
      }
      h := h.(visits := h.visits + 1);
      var due := h.visits >= cfg.maxPhaseVisits && !h.escalated;
      if due && s.landed {
        h := h.(escalated := true);
      }
      health := health[key := h];
      return Mark(Stuck, due, due && s.landed);
    }
  }

  // ── runs ────────────────────────────────────────────────────────────────

  datatype Event = Patrol(sub: Sub, sight: Sight) | Approved(sha: Sha, ts: int)

  const UNSEEN := Watched(None, [])

  function Happen(w: Watched, cfg: Settings, e: Event): Watched {
    match e
    case Patrol(sub, s) => Visit(w, sub, cfg, s).after
    case Approved(sha, ts) => w.(rows := w.rows + [Grant(sha, ts)])
  }

  function After(cfg: Settings, es: seq<Event>): Watched {
    if es == [] then UNSEEN else Happen(After(cfg, es[..|es| - 1]), cfg, es[|es| - 1])
  }

  // One mark for each patrol of the run, in order.
  function Trace(cfg: Settings, es: seq<Event>): seq<Mark> {
    if es == [] then []
    else
      var front, e := es[..|es| - 1], es[|es| - 1];
      Trace(cfg, front) + if e.Patrol? then [Visit(After(cfg, front), e.sub, cfg, e.sight).mark] else []
  }

  // What a reader of the trace alone would say.

  function Stucks(t: seq<Mark>): nat {
    if t == [] then 0 else Stucks(t[..|t| - 1]) + if t[|t| - 1].kind == Stuck then 1 else 0
  }

  // The index just past the last progress or re-nudge.
  function ResetPoint(t: seq<Mark>): (i: nat)
    ensures i <= |t|
  {
    if t == [] then 0
    else if t[|t| - 1].kind == Progress || t[|t| - 1].kind == Renudge then |t|
    else ResetPoint(t[..|t| - 1])
  }

  function ProgressPoint(t: seq<Mark>): (i: nat)
    ensures i <= |t| && (i > 0 ==> t[i - 1].kind == Progress)
  {
    if t == [] then 0
    else if t[|t| - 1].kind == Progress then |t|
    else ProgressPoint(t[..|t| - 1])
  }

  predicate LandedSinceProgress(t: seq<Mark>) {
    exists i :: ProgressPoint(t) <= i < |t| && t[i].landed
  }

  predicate Resets(k: Kind) {
    k == Progress || k == Renudge
  }

  lemma StucksSnoc(t: seq<Mark>, m: Mark)
    ensures Stucks(t + [m]) == Stucks(t) + if m.kind == Stuck then 1 else 0
  {
    assert (t + [m])[..|t|] == t;
  }

  lemma PointsSnoc(t: seq<Mark>, m: Mark)
    ensures ResetPoint(t + [m]) == if Resets(m.kind) then |t| + 1 else ResetPoint(t)
    ensures ProgressPoint(t + [m]) == if m.kind == Progress then |t| + 1 else ProgressPoint(t)
  {
    assert (t + [m])[..|t|] == t;
  }

  function StuckSinceReset(t: seq<Mark>): nat {
    Stucks(t[ResetPoint(t)..])
  }

  lemma StuckSnoc(t: seq<Mark>, m: Mark)
    ensures StuckSinceReset(t + [m]) ==
      if Resets(m.kind) then 0 else StuckSinceReset(t) + if m.kind == Stuck then 1 else 0
  {
    PointsSnoc(t, m);
    hide ResetPoint, ProgressPoint;
    if Resets(m.kind) {
      assert (t + [m])[|t| + 1..] == [];
    } else {
      var r := ResetPoint(t);
      assert (t + [m])[r..] == t[r..] + [m];
      StucksSnoc(t[r..], m);
    }
  }

  lemma LandedSnoc(t: seq<Mark>, m: Mark)
    ensures LandedSinceProgress(t + [m]) <==> m.kind != Progress && (LandedSinceProgress(t) || m.landed)
  {
    PointsSnoc(t, m);
    hide ResetPoint, ProgressPoint;
    if m.kind != Progress {
      if LandedSinceProgress(t) {
        var i :| ProgressPoint(t) <= i < |t| && t[i].landed;
        assert (t + [m])[i].landed;
      }
      if m.landed { assert (t + [m])[|t|].landed; }
    }
  }

  lemma TraceSnoc(cfg: Settings, front: seq<Event>, e: Event)
    ensures After(cfg, front + [e]) == Happen(After(cfg, front), cfg, e)
    ensures Trace(cfg, front + [e]) == Trace(cfg, front) +
      if e.Patrol? then [Visit(After(cfg, front), e.sub, cfg, e.sight).mark] else []
  {
    assert (front + [e])[..|front|] == front;
  }

  function Counted(w: Watched): nat {
    if w.health.Some? then w.health.value.visits else 0
  }

  predicate Burnt(w: Watched) {
    w.health.Some? && w.health.value.escalated
  }

  // What one patrol does to the counter and the escalate-once marker.
  lemma VisitCounts(w: Watched, sub: Sub, cfg: Settings, s: Sight)
    ensures var step := Visit(w, sub, cfg, s);
      && Counted(step.after) ==
           (if Resets(step.mark.kind) then 0 else Counted(w) + if step.mark.kind == Stuck then 1 else 0)
      && (Burnt(step.after) <==> step.mark.kind != Progress && (Burnt(w) || step.mark.landed))
  {
    hide Owner, Drifted, Newer, AllReadsFailed;
  }

  // The stall counter is the number of no-progress patrols since the last
  // progress or re-nudge: failed and drifted patrols leave it alone. The
  // escalate-once marker is set iff an escalation landed since the last progress.
  lemma {:induction false} CounterMatchesTrace(cfg: Settings, es: seq<Event>)
    ensures Counted(After(cfg, es)) == StuckSinceReset(Trace(cfg, es))
    ensures Burnt(After(cfg, es)) <==> LandedSinceProgress(Trace(cfg, es))
    decreases |es|
  {
    if es != [] {
      var front, e := es[..|es| - 1], es[|es| - 1];
      CounterMatchesTrace(cfg, front);
      assert es == front + [e];
      TraceSnoc(cfg, front, e);
      hide Visit, After, Trace, StuckSinceReset, LandedSinceProgress;
      if e.Patrol? {
        var m := Visit(After(cfg, front), e.sub, cfg, e.sight).mark;
        VisitCounts(After(cfg, front), e.sub, cfg, e.sight);
        StuckSnoc(Trace(cfg, front), m);
        LandedSnoc(Trace(cfg, front), m);
      } else {
        assert Trace(cfg, es) == Trace(cfg, front);
      }
    }
  }

  // An escalation is attempted exactly on a no-progress patrol that brings the
  // count since the last reset to the cap, with none landed since the last
  // progress.
  lemma AttemptedIff(cfg: Settings, es: seq<Event>, sub: Sub, s: Sight)
    ensures var t, m := Trace(cfg, es), Visit(After(cfg, es), sub, cfg, s).mark;
      m.attempted <==>
        m.kind == Stuck && StuckSinceReset(t) + 1 >= cfg.maxPhaseVisits && !LandedSinceProgress(t)
  {
    CounterMatchesTrace(cfg, es);
    hide Owner, Drifted, Newer, AllReadsFailed, LandedSinceProgress, StuckSinceReset, After, Trace;
  }

  // Between any two escalations that landed there is a progress.
  lemma {:induction false} OneLandsPerStall(cfg: Settings, es: seq<Event>, i: nat, j: nat)
    requires i < j < |Trace(cfg, es)| && Trace(cfg, es)[i].landed && Trace(cfg, es)[j].landed
    ensures exists k :: i < k < j && Trace(cfg, es)[k].kind == Progress
    decreases |es|
  {
    var front, e := es[..|es| - 1], es[|es| - 1];
    assert es == front + [e];
    var t := Trace(cfg, front);
    TraceSnoc(cfg, front, e);
    hide After, Trace, Visit;
    if j < |t| {
      OneLandsPerStall(cfg, front, i, j);
      var k :| i < k < j && t[k].kind == Progress;
      assert Trace(cfg, es)[k] == t[k];
    } else {
      LandedWasDue(cfg, front, e);
      LandedAreStuck(cfg, front, i);
      assert t[i].landed;
      var k := ProgressPoint(t) - 1;
      assert Trace(cfg, es)[k] == t[k];
    }
  }

  lemma LandedWasDue(cfg: Settings, es: seq<Event>, e: Event)
    requires e.Patrol? && Visit(After(cfg, es), e.sub, cfg, e.sight).mark.landed
    ensures !LandedSinceProgress(Trace(cfg, es))
  {
    AttemptedIff(cfg, es, e.sub, e.sight);
    hide Owner, Drifted, Newer, AllReadsFailed, LandedSinceProgress, StuckSinceReset, After, Trace;
  }

  lemma {:induction false} LandedAreStuck(cfg: Settings, es: seq<Event>, i: nat)
    requires i < |Trace(cfg, es)| && Trace(cfg, es)[i].landed
    ensures Trace(cfg, es)[i].kind == Stuck
    decreases |es|
  {
    var front, e := es[..|es| - 1], es[|es| - 1];
    if i < |Trace(cfg, front)| {
      LandedAreStuck(cfg, front, i);
    } else {
      hide After, Owner, Drifted, Newer, AllReadsFailed;
    }
  }
}
