/**
 What the stall patrol (module StallPatrol) achieves over runs: which stalls are
 noticed and after how many patrols, what the two re-nudge rungs may send, and
 what becomes of a subtask whose granted head moved.
 */
module StallOutcomes {
  import opened Basics
  import opened Fsm
  import opened StallPatrol

  // ── patrols of one row in a row ─────────────────────────────────────────

  function VisitAll(w: Watched, cfg: Settings, sub: Sub, sights: seq<Sight>): Watched {
    if sights == [] then w
    else Visit(VisitAll(w, cfg, sub, sights[..|sights| - 1]), sub, cfg, sights[|sights| - 1]).after
  }

  function MarkAt(w: Watched, cfg: Settings, sub: Sub, sights: seq<Sight>, i: nat): Mark
    requires i < |sights|
  {
    Visit(VisitAll(w, cfg, sub, sights[..i]), sub, cfg, sights[i]).mark
  }

  // ── the two rungs as one ────────────────────────────────────────────────

  // A rung of this row's state is switched on.
  predicate RungApplies(sub: Sub, cfg: Settings, s: Sight) {
    || (sub.state == MergePending && sub.approved.Some? && Head(sub, s) == sub.approved && cfg.backstopMax > 0)
    || (sub.state == AcceptancePassed && cfg.advanceMax > 0)
  }

  function Budget(sub: Sub, cfg: Settings): nat {
    if sub.state == MergePending then cfg.backstopMax else cfg.advanceMax
  }

  // Re-nudges already sent: for the approved SHA, or since entry.
  function Used(rows: seq<Marker>, sub: Sub): nat {
    if sub.state == MergePending && sub.approved.Some? then Nudges(rows, sub.approved.value)
    else Advances(rows, sub.entered)
  }

  // What the window is measured from; None when no grant is on record.
  function AnchorOf(rows: seq<Marker>, sub: Sub): Option<int> {
    if sub.state == MergePending && sub.approved.Some? then
      var nudged := NewestNudge(rows, sub.approved.value);
      if NewestGrant(rows, sub.approved.value).Some? && nudged.Some? then nudged
      else NewestGrant(rows, sub.approved.value)
    else
      var nudged := NewestAdvance(rows, sub.entered);
      if nudged.Some? then nudged else Some(sub.entered)
  }

  function WindowOf(sub: Sub, cfg: Settings): int {
    if sub.state == MergePending then cfg.backstopSeconds else cfg.advanceSeconds
  }

  // Nothing stands between a patrol of this row and the stall counter: the head
  // has not drifted, and a rung that applies has no grant or no re-nudge left.
  predicate Released(rows: seq<Marker>, sub: Sub, cfg: Settings, s: Sight) {
    && !Drifted(sub, s)
    && (RungApplies(sub, cfg, s) ==> AnchorOf(rows, sub).None? || Used(rows, sub) >= Budget(sub, cfg))
  }

  // A patrol reaches the stall counter exactly when it is released, in every
  // state and for both rungs.
  lemma HandsOverIff(w: Watched, sub: Sub, cfg: Settings, s: Sight)
    ensures Visit(w, sub, cfg, s).mark.kind in {NoData, Progress, Stuck} <==> Released(w.rows, sub, cfg, s)
    ensures Visit(w, sub, cfg, s).mark.kind == Drift <==> Drifted(sub, s)
  {
    hide Newer, AllReadsFailed;
  }

  lemma ReleasedVisit(w: Watched, sub: Sub, cfg: Settings, s: Sight)
    requires Released(w.rows, sub, cfg, s)
    ensures var m := Measure(if w.health.Some? then w.health.value else NEW_HEALTH, sub, cfg, s);
      Visit(w, sub, cfg, s) == Step(Watched(Some(m.0), w.rows), m.1)
  {
    hide Measure;
  }

  // ── when a stall is noticed ─────────────────────────────────────────────

  predicate SameReads(a: Sight, b: Sight) {
    a.head == b.head && a.prTs == b.prTs && a.transitionOk == b.transitionOk && a.transitionTs == b.transitionTs
  }

  // The baselines are what these reads would set them to.
  predicate Settled(w: Watched, sub: Sub, s: Sight) {
    && w.health.Some?
    && (Head(sub, s).Some? ==> w.health.value.lastHead == Head(sub, s).value)
    && (LatestTs(sub, s).Some? ==> w.health.value.lastTs == LatestTs(sub, s))
  }

  lemma SettledStep(w: Watched, cfg: Settings, sub: Sub, s: Sight, now: Sight)
    requires Released(w.rows, sub, cfg, s) && !AllReadsFailed(sub, s) && SameReads(s, now)
    ensures var step := Visit(w, sub, cfg, now);
      && step.after.rows == w.rows
      && Settled(step.after, sub, s) && (Settled(w, sub, s) ==> Counted(step.after) == Counted(w) + 1)
  {
    ReleasedVisit(w, sub, cfg, now);
    hide Visit, Released;
  }

  lemma {:induction false} StuckGrows(w: Watched, cfg: Settings, sub: Sub, s: Sight, sights: seq<Sight>)
    requires Released(w.rows, sub, cfg, s) && !AllReadsFailed(sub, s)
    requires sights != [] && forall i :: 0 <= i < |sights| ==> SameReads(s, sights[i])
    ensures var after := VisitAll(w, cfg, sub, sights);
      after.rows == w.rows && Settled(after, sub, s) && Counted(after) >= |sights| - 1
    decreases |sights|
  {
    hide Visit, Settled, AllReadsFailed, Released;
    var front, now := sights[..|sights| - 1], sights[|sights| - 1];
    if front != [] {
      StuckGrows(w, cfg, sub, s, front);
    }
    SettledStep(VisitAll(w, cfg, sub, front), cfg, sub, s, now);
  }

  // From any state of the daemon: one patrol more than the cap, every one of
  // them released and reading the same, and an escalation has landed or is being
  // attempted.
  lemma StallIsNoticed(w: Watched, cfg: Settings, sub: Sub, s: Sight, sights: seq<Sight>)
    requires Released(w.rows, sub, cfg, s) && !AllReadsFailed(sub, s)
    requires cfg.maxPhaseVisits >= 1 && |sights| == cfg.maxPhaseVisits + 1
    requires forall i :: 0 <= i < |sights| ==> SameReads(s, sights[i])
    ensures Burnt(VisitAll(w, cfg, sub, sights[..cfg.maxPhaseVisits]))
         || MarkAt(w, cfg, sub, sights, cfg.maxPhaseVisits).attempted
  {
    var w' := VisitAll(w, cfg, sub, sights[..cfg.maxPhaseVisits]);
    StuckGrows(w, cfg, sub, s, sights[..cfg.maxPhaseVisits]);
    hide VisitAll;
    ReleasedVisit(w', sub, cfg, sights[cfg.maxPhaseVisits]);
    hide Visit, Released;
  }

  // ── a hung merge or acceptance ──────────────────────────────────────────

  // A delivered re-nudge that is due uses one up and moves the anchor to itself.
  lemma DueRungFires(w: Watched, sub: Sub, cfg: Settings, s: Sight)
    requires RungApplies(sub, cfg, s) && AnchorOf(w.rows, sub).Some? && Used(w.rows, sub) < Budget(sub, cfg)
    requires s.now - AnchorOf(w.rows, sub).value >= WindowOf(sub, cfg) && s.delivered
    requires s.stamp >= s.now && s.stamp >= sub.entered
    ensures var after := Visit(w, sub, cfg, s).after;
      && Used(after.rows, sub) == Used(w.rows, sub) + 1 && AnchorOf(after.rows, sub) == Some(s.stamp)
  {
    var m := Fired(sub, s);
    assert (w.rows + [m])[..|w.rows|] == w.rows;
  }

  // A patrol that sees what `s` saw, and on which a re-nudge would be delivered.
  predicate Repeats(sub: Sub, s: Sight, now: Sight, gap: int) {
    SameReads(s, now) && now.delivered && sub.entered <= now.stamp && now.now <= now.stamp <= now.now + gap
  }

  // Patrols of a row on which nothing changes, each over at most `gap` after the
  // one before it began.
  predicate Hung(sub: Sub, s: Sight, sights: seq<Sight>, gap: int) {
    && (forall i :: 0 <= i < |sights| ==> Repeats(sub, s, sights[i], gap))
    && (forall i: nat :: i + 1 < |sights| ==> sights[i + 1].stamp - sights[i].now <= gap)
  }

  // A patrol of it re-nudges when that is due, and otherwise leaves the rows.
  lemma HungStep(w: Watched, sub: Sub, cfg: Settings, s: Sight, now: Sight, gap: int)
    requires RungApplies(sub, cfg, s) && !Drifted(sub, s) && AnchorOf(w.rows, sub).Some? && Repeats(sub, s, now, gap)
    ensures var rows := Visit(w, sub, cfg, now).after.rows;
      var due := now.now - AnchorOf(w.rows, sub).value >= WindowOf(sub, cfg);
      if Used(w.rows, sub) < Budget(sub, cfg) && due
      then Used(rows, sub) == Used(w.rows, sub) + 1 && AnchorOf(rows, sub) == Some(now.stamp)
      else rows == w.rows
  {
    if Used(w.rows, sub) < Budget(sub, cfg) && now.now - AnchorOf(w.rows, sub).value >= WindowOf(sub, cfg) {
      DueRungFires(w, sub, cfg, now);
    } else {
      hide Measure, Nudges, Advances, NewestNudge, NewestGrant, NewestAdvance;
    }
  }

  // Where the rung stands after the first patrols: used up, or its anchor has
  // moved on by no more than a window and a gap for each re-nudge, and was not
  // yet a window old when the last of them began.
  predicate OnSchedule(rows: seq<Marker>, sub: Sub, cfg: Settings, start: int, used: nat, last: int, gap: int) {
    var anchor := AnchorOf(rows, sub);
    && anchor.Some? && used <= Used(rows, sub)
    && (Used(rows, sub) < Budget(sub, cfg) ==>
          && anchor.value <= start + (Used(rows, sub) - used) * (WindowOf(sub, cfg) + gap)
          && last - anchor.value < WindowOf(sub, cfg))
  }

  lemma ScheduleKept(
      w: Watched, sub: Sub, cfg: Settings, s: Sight, now: Sight, start: int, used: nat, last: int, gap: int)
    requires RungApplies(sub, cfg, s) && !Drifted(sub, s) && Repeats(sub, s, now, gap) && WindowOf(sub, cfg) >= 1
    requires OnSchedule(w.rows, sub, cfg, start, used, last, gap) && now.stamp - last <= gap
    ensures OnSchedule(Visit(w, sub, cfg, now).after.rows, sub, cfg, start, used, now.now, gap)
  {
    HungStep(w, sub, cfg, s, now, gap);
    OneMore(Used(w.rows, sub) - used, WindowOf(sub, cfg) + gap);
    hide Visit, Used, AnchorOf, Budget, WindowOf, RungApplies, Drifted, SameReads;
  }

  lemma OneMore(k: int, x: int)
    ensures (k + 1) * x == k * x + x
  {
  }

  // The first patrol may come long after the anchor.
  lemma ScheduleBegins(w: Watched, sub: Sub, cfg: Settings, s: Sight, now: Sight, gap: int)
    requires RungApplies(sub, cfg, s) && !Drifted(sub, s) && Repeats(sub, s, now, gap) && WindowOf(sub, cfg) >= 1
    requires AnchorOf(w.rows, sub).Some?
    ensures OnSchedule(Visit(w, sub, cfg, now).after.rows, sub, cfg,
              Max(AnchorOf(w.rows, sub).value, now.now), Used(w.rows, sub), now.now, gap)
  {
    HungStep(w, sub, cfg, s, now, gap);
    hide Visit, Used, AnchorOf, Budget, WindowOf, RungApplies, Drifted, SameReads;
  }

  lemma {:induction false} ScheduleHolds(
      w: Watched, cfg: Settings, sub: Sub, s: Sight, sights: seq<Sight>, gap: int, n: nat)
    requires RungApplies(sub, cfg, s) && !Drifted(sub, s) && WindowOf(sub, cfg) >= 1
    requires AnchorOf(w.rows, sub).Some? && Hung(sub, s, sights, gap) && 0 < n <= |sights|
    ensures OnSchedule(VisitAll(w, cfg, sub, sights[..n]).rows, sub, cfg,
              Max(AnchorOf(w.rows, sub).value, sights[0].now), Used(w.rows, sub), sights[n - 1].now, gap)
  {
    hide Visit, VisitAll, Used, AnchorOf, Budget, WindowOf, RungApplies, Drifted, OnSchedule, Repeats, Max;
    OneMoreVisit(w, cfg, sub, sights, n - 1);
    assert Repeats(sub, s, sights[n - 1], gap);
    if n == 1 {
      ScheduleBegins(w, sub, cfg, s, sights[0], gap);
    } else {
      ScheduleHolds(w, cfg, sub, s, sights, gap, n - 1);
      ScheduleKept(VisitAll(w, cfg, sub, sights[..n - 1]), sub, cfg, s, sights[n - 1],
        Max(AnchorOf(w.rows, sub).value, sights[0].now), Used(w.rows, sub), sights[n - 2].now, gap);
    }
  }

  // How long the re-nudges that are left can hold the row back.
  function HeldFor(rows: seq<Marker>, sub: Sub, cfg: Settings, gap: int): int {
    Left(Budget(sub, cfg), Used(rows, sub)) * (WindowOf(sub, cfg) + gap)
  }

  // Patrolled that long, the row has no re-nudge left.
  lemma RungRunsOut(w: Watched, cfg: Settings, sub: Sub, s: Sight, sights: seq<Sight>, gap: int, n: nat)
    requires RungApplies(sub, cfg, s) && !Drifted(sub, s) && WindowOf(sub, cfg) >= 1
    requires AnchorOf(w.rows, sub).Some? && Hung(sub, s, sights, gap) && 0 < n <= |sights|
    requires sights[n - 1].now - Max(AnchorOf(w.rows, sub).value, sights[0].now) >= HeldFor(w.rows, sub, cfg, gap)
    ensures Used(VisitAll(w, cfg, sub, sights[..n]).rows, sub) >= Budget(sub, cfg)
  {
    ScheduleHolds(w, cfg, sub, s, sights, gap, n);
    assert Repeats(sub, s, sights[0], gap);
    var used, now := Used(w.rows, sub), Used(VisitAll(w, cfg, sub, sights[..n]).rows, sub);
    hide VisitAll, Used, AnchorOf, Budget, WindowOf, RungApplies, Drifted, SameReads, Max, Hung;
    if now < Budget(sub, cfg) {
      FewerSpent(now - used, Left(Budget(sub, cfg), used), WindowOf(sub, cfg) + gap);
    }
  }

  lemma FewerSpent(k: int, n: int, x: int)
    requires k < n && x >= 0
    ensures k * x + x <= n * x
  {
    assert n * x - (k * x + x) == (n - k - 1) * x;
    assert (n - k - 1) * x >= 0;
  }

  lemma ReleasedOnce(w: Watched, cfg: Settings, sub: Sub, s: Sight)
    requires !Drifted(sub, s) && Used(w.rows, sub) >= Budget(sub, cfg)
    ensures Released(w.rows, sub, cfg, s)
  {
  }

  lemma RestRepeats(sub: Sub, s: Sight, sights: seq<Sight>, gap: int, n: nat)
    requires Hung(sub, s, sights, gap) && n <= |sights|
    ensures forall i :: 0 <= i < |sights[n..]| ==> SameReads(s, sights[n..][i])
  {
    forall i | 0 <= i < |sights[n..]|
      ensures SameReads(s, sights[n..][i])
    {
      assert Repeats(sub, s, sights[n + i], gap);
    }
  }

  // Visiting in two stretches.
  lemma {:induction false} VisitedInTwo(w: Watched, cfg: Settings, sub: Sub, sights: seq<Sight>, n: nat, k: nat)
    requires n + k < |sights|
    ensures var w1, rest := VisitAll(w, cfg, sub, sights[..n]), sights[n..];
      && VisitAll(w1, cfg, sub, rest[..k]) == VisitAll(w, cfg, sub, sights[..n + k])
      && MarkAt(w1, cfg, sub, rest, k) == MarkAt(w, cfg, sub, sights, n + k)
    decreases k
  {
    hide Visit;
    var w1, rest := VisitAll(w, cfg, sub, sights[..n]), sights[n..];
    if k == 0 {
      assert rest[..0] == [];
    } else {
      VisitedInTwo(w, cfg, sub, sights, n, k - 1);
      OneMoreVisit(w1, cfg, sub, rest, k - 1);
      OneMoreVisit(w, cfg, sub, sights, n + k - 1);
      hide VisitAll, MarkAt;
      assert rest[k - 1] == sights[n + k - 1];
    }
    OneMoreVisit(w1, cfg, sub, rest, k);
    OneMoreVisit(w, cfg, sub, sights, n + k);
  }

  // A hung merge or acceptance is escalated, however the patrols fall: once they
  // have gone on for as long as the re-nudges left can hold the row back, one
  // patrol more than the cap, and an escalation has landed or is attempted.
  lemma HungIsEscalated(w: Watched, cfg: Settings, sub: Sub, s: Sight, sights: seq<Sight>, gap: int, n: nat)
    requires RungApplies(sub, cfg, s) && !Drifted(sub, s) && !AllReadsFailed(sub, s)
    requires AnchorOf(w.rows, sub).Some? && WindowOf(sub, cfg) >= 1 && Hung(sub, s, sights, gap)
    requires cfg.maxPhaseVisits >= 1 && |sights| == n + cfg.maxPhaseVisits + 1 && n > 0
    requires sights[n - 1].now - Max(AnchorOf(w.rows, sub).value, sights[0].now) >= HeldFor(w.rows, sub, cfg, gap)
    ensures Burnt(VisitAll(w, cfg, sub, sights[..|sights| - 1]))
         || MarkAt(w, cfg, sub, sights, |sights| - 1).attempted
  {
    hide *;
    var w1, rest := VisitAll(w, cfg, sub, sights[..n]), sights[n..];
    RungRunsOut(w, cfg, sub, s, sights, gap, n);
    ReleasedOnce(w1, cfg, sub, s);
    RestRepeats(sub, s, sights, gap, n);
    StallIsNoticed(w1, cfg, sub, s, rest);
    VisitedInTwo(w, cfg, sub, sights, n, cfg.maxPhaseVisits);
    assert rest[..cfg.maxPhaseVisits] == sights[n..][..cfg.maxPhaseVisits];
  }

  const DEFAULTS := Settings(10, 1, 240, 1, 240)

  // n patrols of an unchanging row, two minutes apart.
  function EveryTwoMinutes(s: Sight, start: int, n: nat): (sights: seq<Sight>)
    ensures |sights| == n
    ensures forall i :: 0 <= i < n ==> sights[i].now == start + 120 * i
  {
    seq(n, i => s.(now := start + 120 * i, stamp := start + 120 * i, delivered := true))
  }

  // At default settings that takes at most fifteen patrols.
  lemma HungAtDefaults(w: Watched, sub: Sub, s: Sight, start: int)
    requires RungApplies(sub, DEFAULTS, s) && !Drifted(sub, s) && !AllReadsFailed(sub, s)
    requires AnchorOf(w.rows, sub).Some? && AnchorOf(w.rows, sub).value <= start && sub.entered <= start
    ensures var sights := EveryTwoMinutes(s, start, 15);
      Burnt(VisitAll(w, DEFAULTS, sub, sights[..14])) || MarkAt(w, DEFAULTS, sub, sights, 14).attempted
  {
    hide VisitAll, MarkAt, Burnt, RungApplies, Drifted, AllReadsFailed, AnchorOf, Used;
    HungIsEscalated(w, DEFAULTS, sub, s, EveryTwoMinutes(s, start, 15), 120, 4);
  }

  // While re-nudges cannot be delivered neither rung reaches its cap, so the
  // subtask is never handed to the stall counter.
  lemma {:induction false} UndeliverableIsNeverNoticed(w: Watched, cfg: Settings, sub: Sub, sights: seq<Sight>)
    requires AnchorOf(w.rows, sub).Some? && Used(w.rows, sub) < Budget(sub, cfg)
    requires forall i :: 0 <= i < |sights| ==> RungApplies(sub, cfg, sights[i]) && !sights[i].delivered
    ensures VisitAll(w, cfg, sub, sights).rows == w.rows
    ensures sights != [] ==> MarkAt(w, cfg, sub, sights, |sights| - 1) == Mark(Renudge, false, false)
    ensures sights != [] ==> Counted(VisitAll(w, cfg, sub, sights)) == 0
    decreases |sights|
  {
    if sights != [] {
      UndeliverableIsNeverNoticed(w, cfg, sub, sights[..|sights| - 1]);
    }
  }

  // ── a frozen subtask ────────────────────────────────────────────────────

  // Head, PR and log timestamps never change; only the PR read may fail.
  predicate Frozen(rows: seq<Marker>, cfg: Settings, sub: Sub, s: Sight, head: Option<Sha>, pr: int, moved: int) {
    && Released(rows, sub, cfg, s) && sub.pr
    && Head(sub, s) == head && s.transitionOk && s.transitionTs == Some(moved)
    && (s.prTs.None? || s.prTs == Some(pr))
  }

  predicate FrozenBaseline(h: Health, head: Option<Sha>, pr: int, moved: int, sawPr: bool) {
    && (head.Some? ==> h.lastHead == head.value)
    && h.lastTs == Some(if sawPr then Max(pr, moved) else moved)
  }

  // Though nothing changes, a patrol counts as progress exactly when the PR is
  // the newer signal and its read works again after having failed.
  lemma FrozenProgressIff(
      w: Watched, cfg: Settings, sub: Sub, s: Sight, head: Option<Sha>, pr: int, moved: int, sawPr: bool)
    requires Frozen(w.rows, cfg, sub, s, head, pr, moved)
    requires w.health.Some? && FrozenBaseline(w.health.value, head, pr, moved, sawPr)
    ensures var step := Visit(w, sub, cfg, s);
      && (step.mark.kind == Progress <==> pr > moved && s.prTs.Some? && !sawPr)
      && (step.mark.kind == Stuck <==> step.mark.kind != Progress)
      && (step.mark.attempted <==>
            step.mark.kind == Stuck && Counted(w) + 1 >= cfg.maxPhaseVisits && !Burnt(w))
      && step.after.rows == w.rows && step.after.health.Some?
      && FrozenBaseline(step.after.health.value, head, pr, moved, s.prTs.Some?)
  {
    ReleasedVisit(w, sub, cfg, s);
    hide Visit, Released;
  }

  // The first patrol of a subtask always counts as progress.
  lemma FirstVisit(rows: seq<Marker>, cfg: Settings, sub: Sub, s: Sight, head: Option<Sha>, pr: int, moved: int)
    requires Frozen(rows, cfg, sub, s, head, pr, moved)
    ensures var step := Visit(Watched(None, rows), sub, cfg, s);
      && step.mark == Mark(Progress, false, false) && step.after.rows == rows && step.after.health.Some?
      && FrozenBaseline(step.after.health.value, head, pr, moved, s.prTs.Some?)
  {
    ReleasedVisit(Watched(None, rows), sub, cfg, s);
    hide Visit, Released;
  }

  predicate AllFrozen(
      rows: seq<Marker>, cfg: Settings, sub: Sub, sights: seq<Sight>, head: Option<Sha>, pr: int, moved: int)
  {
    forall i :: 0 <= i < |sights| ==> Frozen(rows, cfg, sub, sights[i], head, pr, moved)
  }

  // The PR read works again after having failed, and carries the newer time.
  predicate Recovers(sights: seq<Sight>, pr: int, moved: int, i: nat)
    requires i < |sights|
  {
    i > 0 && pr > moved && sights[i].prTs.Some? && sights[i - 1].prTs.None?
  }

  // The last recovery up to patrol i, or the first patrol.
  function LastRecovery(sights: seq<Sight>, pr: int, moved: int, i: nat): (k: nat)
    requires i < |sights|
    ensures k <= i
  {
    if i == 0 || Recovers(sights, pr, moved, i) then i else LastRecovery(sights, pr, moved, i - 1)
  }

  ghost predicate LandedIn(rows: seq<Marker>, cfg: Settings, sub: Sub, sights: seq<Sight>, from: nat, to: nat)
    requires to <= |sights|
  {
    exists k: nat :: from <= k < to && MarkAt(Watched(None, rows), cfg, sub, sights, k).landed
  }

  lemma {:induction false} FrozenState(
      rows: seq<Marker>, cfg: Settings, sub: Sub, sights: seq<Sight>, head: Option<Sha>, pr: int, moved: int, i: nat)
    requires AllFrozen(rows, cfg, sub, sights, head, pr, moved) && i < |sights|
    ensures var w, k := VisitAll(Watched(None, rows), cfg, sub, sights[..i + 1]), LastRecovery(sights, pr, moved, i);
      && w.rows == rows && w.health.Some?
      && FrozenBaseline(w.health.value, head, pr, moved, sights[i].prTs.Some?)
      && Counted(w) == i - k && (Burnt(w) <==> LandedIn(rows, cfg, sub, sights, k, i + 1))
    decreases i
  {
    hide Visit, VisitAll, MarkAt, FrozenBaseline, Frozen, Counted, Burnt;
    var s, start := sights[i], Watched(None, rows);
    var before := VisitAll(start, cfg, sub, sights[..i]);
    OneMoreVisit(start, cfg, sub, sights, i);
    assert Frozen(rows, cfg, sub, s, head, pr, moved);
    if i == 0 {
      FirstVisit(rows, cfg, sub, s, head, pr, moved);
      NothingCounted(start);
    } else {
      FrozenState(rows, cfg, sub, sights, head, pr, moved, i - 1);
      FrozenProgressIff(before, cfg, sub, s, head, pr, moved, sights[i - 1].prTs.Some?);
    }
    VisitCounts(before, sub, cfg, s);
    LandedOneOn(rows, cfg, sub, sights, LastRecovery(sights, pr, moved, i), i);
    LandedIsStuck(before, sub, cfg, s);
  }

  lemma OneMoreVisit(w: Watched, cfg: Settings, sub: Sub, sights: seq<Sight>, i: nat)
    requires i < |sights|
    ensures var before := VisitAll(w, cfg, sub, sights[..i]);
      && VisitAll(w, cfg, sub, sights[..i + 1]) == Visit(before, sub, cfg, sights[i]).after
      && MarkAt(w, cfg, sub, sights, i) == Visit(before, sub, cfg, sights[i]).mark
      && (i == 0 ==> before == w)
  {
    assert sights[..i + 1][..i] == sights[..i];
  }

  lemma NothingCounted(w: Watched)
    requires w.health.None?
    ensures Counted(w) == 0 && !Burnt(w)
  {
  }

  lemma LandedOneOn(rows: seq<Marker>, cfg: Settings, sub: Sub, sights: seq<Sight>, from: nat, i: nat)
    requires from <= i < |sights|
    ensures LandedIn(rows, cfg, sub, sights, from, i + 1)
       <==> LandedIn(rows, cfg, sub, sights, from, i) || MarkAt(Watched(None, rows), cfg, sub, sights, i).landed
  {
    hide MarkAt;
  }

  lemma LandedIsStuck(w: Watched, sub: Sub, cfg: Settings, s: Sight)
    ensures Visit(w, sub, cfg, s).mark.landed ==> Visit(w, sub, cfg, s).mark.kind == Stuck
  {
    hide Owner, Drifted, Newer, AllReadsFailed;
  }

  // On a frozen subtask an escalation is attempted exactly when the cap is
  // reached with no recovery of the PR read, and none landed, in between.
  lemma FrozenAttemptIff(
      rows: seq<Marker>, cfg: Settings, sub: Sub, sights: seq<Sight>, head: Option<Sha>, pr: int, moved: int, i: nat)
    requires AllFrozen(rows, cfg, sub, sights, head, pr, moved) && i < |sights|
    ensures var k := LastRecovery(sights, pr, moved, i);
      MarkAt(Watched(None, rows), cfg, sub, sights, i).attempted <==>
        i - k >= Max(cfg.maxPhaseVisits, 1) && !LandedIn(rows, cfg, sub, sights, k, i)
  {
    hide Visit, VisitAll, MarkAt, FrozenBaseline, Frozen, Counted, Burnt;
    assert Frozen(rows, cfg, sub, sights[i], head, pr, moved);
    OneMoreVisit(Watched(None, rows), cfg, sub, sights, i);
    if i == 0 {
      FirstVisit(rows, cfg, sub, sights[i], head, pr, moved);
    } else {
      FrozenState(rows, cfg, sub, sights, head, pr, moved, i - 1);
      var w := VisitAll(Watched(None, rows), cfg, sub, sights[..i]);
      FrozenProgressIff(w, cfg, sub, sights[i], head, pr, moved, sights[i - 1].prTs.Some?);
    }
  }

  // So a frozen subtask whose PR read fails on every other patrol is never
  // escalated, however long it is patrolled - unless the cap is one.
  lemma FlappingIsNeverNoticed(
      rows: seq<Marker>, cfg: Settings, sub: Sub, sights: seq<Sight>, head: Option<Sha>, pr: int, moved: int, i: nat)
    requires AllFrozen(rows, cfg, sub, sights, head, pr, moved) && i < |sights|
    requires forall k :: 0 <= k < |sights| ==> (sights[k].prTs.Some? <==> k % 2 == 0)
    requires pr > moved && cfg.maxPhaseVisits > 1
    ensures !MarkAt(Watched(None, rows), cfg, sub, sights, i).attempted
  {
    FrozenAttemptIff(rows, cfg, sub, sights, head, pr, moved, i);
    hide MarkAt, AllFrozen;
    assert i - LastRecovery(sights, pr, moved, i) <= 1 by {
      if i % 2 == 1 && i > 1 { assert Recovers(sights, pr, moved, i - 1); }
    }
  }

  // ── the backstop over runs ──────────────────────────────────────────────

  predicate NudgesSpaced(rows: seq<Marker>, cfg: Settings) {
    forall i, j ::
      0 <= i < j < |rows| && rows[i].BackstopNudge? && rows[j].BackstopNudge? && rows[i].sha == rows[j].sha ==>
        rows[j].ts - rows[i].ts >= cfg.backstopSeconds
  }

  predicate GrantBefore(rows: seq<Marker>, j: nat, cfg: Settings)
    requires j < |rows| && rows[j].BackstopNudge?
  {
    exists i :: 0 <= i < j && rows[i].Grant? && rows[i].sha == rows[j].sha
                && rows[j].ts - rows[i].ts >= cfg.backstopSeconds
  }

  predicate NudgesEarned(rows: seq<Marker>, cfg: Settings) {
    forall j :: 0 <= j < |rows| && rows[j].BackstopNudge? ==> GrantBefore(rows, j, cfg)
  }

  ghost predicate NudgesCapped(rows: seq<Marker>, cfg: Settings) {
    forall sha :: Nudges(rows, sha) <= cfg.backstopMax
  }

  ghost predicate BackstopInv(rows: seq<Marker>, cfg: Settings) {
    NudgesSpaced(rows, cfg) && NudgesEarned(rows, cfg) && NudgesCapped(rows, cfg)
  }

  lemma {:induction false} NewestNudgeIs(rows: seq<Marker>, sha: Sha)
    ensures NewestNudge(rows, sha).None? ==>
      forall i :: 0 <= i < |rows| && rows[i].BackstopNudge? ==> rows[i].sha != sha
    ensures NewestNudge(rows, sha).Some? ==>
      exists k :: 0 <= k < |rows| && rows[k] == BackstopNudge(sha, NewestNudge(rows, sha).value)
        && forall i :: k < i < |rows| && rows[i].BackstopNudge? ==> rows[i].sha != sha
    decreases |rows|
  {
    if rows != [] {
      NewestNudgeIs(rows[..|rows| - 1], sha);
      var last := rows[|rows| - 1];
      if last.BackstopNudge? && last.sha == sha {
        assert rows[|rows| - 1] == BackstopNudge(sha, NewestNudge(rows, sha).value);
      } else if NewestNudge(rows, sha).Some? {
        var front := rows[..|rows| - 1];
        var k :| 0 <= k < |front| && front[k] == BackstopNudge(sha, NewestNudge(rows, sha).value)
          && forall i :: k < i < |front| && front[i].BackstopNudge? ==> front[i].sha != sha;
        assert rows[k] == front[k];
        assert forall i :: 0 <= i < |front| ==> front[i] == rows[i];
      }
    }
  }

  lemma {:induction false} NewestGrantIs(rows: seq<Marker>, sha: Sha)
    requires NewestGrant(rows, sha).Some?
    ensures exists k :: 0 <= k < |rows| && rows[k] == Grant(sha, NewestGrant(rows, sha).value)
    decreases |rows|
  {
    var last := rows[|rows| - 1];
    if last.Grant? && last.sha == sha {
      assert rows[|rows| - 1] == Grant(sha, last.ts);
    } else {
      NewestGrantIs(rows[..|rows| - 1], sha);
      var front := rows[..|rows| - 1];
      var k :| 0 <= k < |front| && front[k] == Grant(sha, NewestGrant(rows, sha).value);
      assert rows[k] == front[k];
    }
  }

  // Any other row leaves the claims about nudges alone.
  lemma OtherMarkerKeeps(rows: seq<Marker>, m: Marker, cfg: Settings)
    requires BackstopInv(rows, cfg) && !m.BackstopNudge?
    ensures BackstopInv(rows + [m], cfg)
  {
    var after := rows + [m];
    EarnedStays(rows, m, cfg);
    assert after[..|rows|] == rows;
    forall sha
      ensures Nudges(after, sha) <= cfg.backstopMax
    {
      assert Nudges(after, sha) == Nudges(rows, sha);
    }
  }

  lemma EarnedStays(rows: seq<Marker>, m: Marker, cfg: Settings)
    requires NudgesEarned(rows, cfg)
    ensures forall j :: 0 <= j < |rows| && rows[j].BackstopNudge? ==> GrantBefore(rows + [m], j, cfg)
  {
    var after := rows + [m];
    forall j | 0 <= j < |rows| && rows[j].BackstopNudge?
      ensures GrantBefore(after, j, cfg)
    {
      assert GrantBefore(rows, j, cfg);
      var i :| 0 <= i < j && rows[i].Grant? && rows[i].sha == rows[j].sha
        && rows[j].ts - rows[i].ts >= cfg.backstopSeconds;
      assert after[i] == rows[i] && after[j] == rows[j];
    }
  }

  // The anchor of a nudge is a row at least a window older.
  lemma NudgeIsSpaced(rows: seq<Marker>, sha: Sha, cfg: Settings, s: Sight)
    requires BackstopInv(rows, cfg) && cfg.backstopSeconds >= 0 && s.stamp >= s.now
    requires Backstop(rows, sha, cfg, s).fired
    ensures forall i :: 0 <= i < |rows| && rows[i].BackstopNudge? && rows[i].sha == sha ==>
      s.stamp - rows[i].ts >= cfg.backstopSeconds
    ensures exists i :: 0 <= i < |rows| && rows[i].Grant? && rows[i].sha == sha
              && s.stamp - rows[i].ts >= cfg.backstopSeconds
  {
    NewestNudgeIs(rows, sha);
    if NewestNudge(rows, sha).Some? {
      var k :| 0 <= k < |rows| && rows[k] == BackstopNudge(sha, NewestNudge(rows, sha).value)
        && forall i :: k < i < |rows| && rows[i].BackstopNudge? ==> rows[i].sha != sha;
      assert GrantBefore(rows, k, cfg);
    } else {
      NewestGrantIs(rows, sha);
    }
  }

  lemma NudgeKeeps(rows: seq<Marker>, sha: Sha, cfg: Settings, s: Sight)
    requires BackstopInv(rows, cfg) && cfg.backstopSeconds >= 0 && s.stamp >= s.now
    requires Backstop(rows, sha, cfg, s).fired
    ensures BackstopInv(rows + [BackstopNudge(sha, s.stamp)], cfg)
  {
    var m := BackstopNudge(sha, s.stamp);
    var after := rows + [m];
    EarnedStays(rows, m, cfg);
    NudgeIsSpaced(rows, sha, cfg, s);
    assert GrantBefore(after, |rows|, cfg) by {
      var i :| 0 <= i < |rows| && rows[i].Grant? && rows[i].sha == sha && s.stamp - rows[i].ts >= cfg.backstopSeconds;
      assert after[i] == rows[i];
    }
    assert after[..|rows|] == rows;
    forall other
      ensures Nudges(after, other) <= cfg.backstopMax
    {
      assert Nudges(after, other) == Nudges(rows, other) + if other == sha then 1 else 0;
    }
  }

  // In every run, each approved SHA is re-nudged at most the configured number
  // of times, never within a window of another re-nudge for it, and never
  // within a window of the grant that earned it.
  lemma {:induction false} BackstopIsBounded(cfg: Settings, es: seq<Event>)
    requires cfg.backstopSeconds >= 0
    requires forall e <- es :: e.Patrol? ==> e.sight.stamp >= e.sight.now
    ensures BackstopInv(After(cfg, es).rows, cfg)
    decreases |es|
  {
    if es != [] {
      var front, e := es[..|es| - 1], es[|es| - 1];
      BackstopIsBounded(cfg, front);
      assert e in es;
      var w := After(cfg, front);
      match e {
        case Approved(sha, ts) => OtherMarkerKeeps(w.rows, Grant(sha, ts), cfg);
        case Patrol(sub, s) => VisitKeepsBackstop(w, sub, cfg, s);
      }
    }
  }

  lemma VisitKeepsBackstop(w: Watched, sub: Sub, cfg: Settings, s: Sight)
    requires BackstopInv(w.rows, cfg) && cfg.backstopSeconds >= 0 && s.stamp >= s.now
    ensures BackstopInv(Visit(w, sub, cfg, s).after.rows, cfg)
  {
    hide BackstopInv, Backstop, Advance;
    if !Drifted(sub, s) && Owner(w.rows, sub, cfg, s).owns && Owner(w.rows, sub, cfg, s).fired {
      if sub.state == MergePending {
        NudgeKeeps(w.rows, sub.approved.value, cfg, s);
      } else {
        OtherMarkerKeeps(w.rows, AdvanceNudge(s.stamp), cfg);
      }
    }
  }

  // ── the acceptance rung over runs ───────────────────────────────────────

  // Patrol i of the run re-nudges for a stalled acceptance entered at `entered`.
  predicate FiresAdvance(cfg: Settings, es: seq<Event>, i: nat, entered: int) {
    && i < |es| && es[i].Patrol? && es[i].sub.state == AcceptancePassed && es[i].sub.entered == entered
    && Owner(After(cfg, es[..i]).rows, es[i].sub, cfg, es[i].sight).fired
  }

  function FiredAt(cfg: Settings, es: seq<Event>, entered: int): nat {
    if es == [] then 0
    else FiredAt(cfg, es[..|es| - 1], entered) + if FiresAdvance(cfg, es, |es| - 1, entered) then 1 else 0
  }

  // What an event does to the rows.
  lemma RowsAfter(cfg: Settings, es: seq<Event>, entered: int)
    requires es != []
    ensures var before, after, e := After(cfg, es[..|es| - 1]).rows, After(cfg, es).rows, es[|es| - 1];
      && (after == before || exists m :: after == before + [m])
      && (after != before && after[|after| - 1].AdvanceNudge? ==>
            e.Patrol? && after[|after| - 1].ts == e.sight.stamp)
      && (FiresAdvance(cfg, es, |es| - 1, entered) ==> after == before + [AdvanceNudge(e.sight.stamp)])
  {
    hide Measure, Backstop, Advance;
  }

  lemma AdvancesSnoc(rows: seq<Marker>, m: Marker, entered: int)
    ensures Advances(rows + [m], entered) == Advances(rows, entered) + if SinceEntry(m, entered) then 1 else 0
    ensures NewestAdvance(rows + [m], entered) ==
      if SinceEntry(m, entered) then Some(m.ts) else NewestAdvance(rows, entered)
  {
    assert (rows + [m])[..|rows|] == rows;
  }

  predicate Stamped(es: seq<Event>) {
    forall e <- es :: e.Patrol? ==> e.sight.stamp >= e.sight.now
  }

  // A re-nudge is sent only with one left, a window after entry at the least.
  lemma AdvanceDue(cfg: Settings, es: seq<Event>, i: nat, entered: int)
    requires FiresAdvance(cfg, es, i, entered)
    ensures var rows, s := After(cfg, es[..i]).rows, es[i].sight;
      && Advances(rows, entered) < cfg.advanceMax
      && s.now - (if NewestAdvance(rows, entered).Some? then NewestAdvance(rows, entered).value else entered)
           >= cfg.advanceSeconds
  {
    hide After;
  }

  // Per acceptance at most the configured number of re-nudges, and each is on
  // the audit log.
  lemma {:induction false} AdvanceIsBounded(cfg: Settings, es: seq<Event>, entered: int)
    requires cfg.advanceSeconds >= 0 && Stamped(es)
    ensures FiredAt(cfg, es, entered) <= cfg.advanceMax
    ensures FiredAt(cfg, es, entered) <= Advances(After(cfg, es).rows, entered)
    decreases |es|
  {
    if es != [] {
      var front, e := es[..|es| - 1], es[|es| - 1];
      assert e in es && forall f <- front :: f in es;
      AdvanceIsBounded(cfg, front, entered);
      RowsAfter(cfg, es, entered);
      var before, after := After(cfg, front).rows, After(cfg, es).rows;
      if after != before { AdvancesSnoc(before, after[|after| - 1], entered); }
      if FiresAdvance(cfg, es, |es| - 1, entered) {
        AdvanceDue(cfg, es, |es| - 1, entered);
        AdvanceNotBeforeEntry(cfg, es, |es| - 1, entered);
      }
      hide After, FiresAdvance, Advances;
    }
  }

  // The markers of an entry are no older than it.
  lemma AdvanceNotBeforeEntry(cfg: Settings, es: seq<Event>, i: nat, entered: int)
    requires FiresAdvance(cfg, es, i, entered) && cfg.advanceSeconds >= 0 && es[i].sight.stamp >= es[i].sight.now
    ensures es[i].sight.now - entered >= cfg.advanceSeconds && es[i].sight.stamp >= entered
  {
    AdvanceDue(cfg, es, i, entered);
    NewestIsSince(After(cfg, es[..i]).rows, entered);
    hide After;
  }

  lemma {:induction false} NewestIsSince(rows: seq<Marker>, entered: int)
    ensures NewestAdvance(rows, entered).Some? ==> NewestAdvance(rows, entered).value >= entered
    decreases |rows|
  {
    if rows != [] {
      NewestIsSince(rows[..|rows| - 1], entered);
    }
  }

  // Each patrol begins after the one before it has written its marker.
  predicate InOrder(es: seq<Event>) {
    && Stamped(es)
    && forall i, j :: 0 <= i < j < |es| && es[i].Patrol? && es[j].Patrol? ==> es[i].sight.stamp <= es[j].sight.now
  }

  lemma {:induction false} NewestSince(cfg: Settings, es: seq<Event>, i: nat, entered: int)
    requires InOrder(es) && cfg.advanceSeconds >= 0 && i < |es| && FiresAdvance(cfg, es, i, entered)
    ensures var newest := NewestAdvance(After(cfg, es).rows, entered);
      newest.Some? && newest.value >= es[i].sight.stamp
    decreases |es|
  {
    hide *;
    if i < |es| - 1 {
      FrontInOrder(es);
      FiresInFront(cfg, es, i, entered);
      NewestSince(cfg, es[..|es| - 1], i, entered);
    }
    NewestKept(cfg, es, i, entered);
  }

  lemma NewestKept(cfg: Settings, es: seq<Event>, i: nat, entered: int)
    requires InOrder(es) && cfg.advanceSeconds >= 0 && i < |es| && FiresAdvance(cfg, es, i, entered)
    requires i < |es| - 1 ==>
      var newest := NewestAdvance(After(cfg, es[..|es| - 1]).rows, entered);
      newest.Some? && newest.value >= es[i].sight.stamp
    ensures var newest := NewestAdvance(After(cfg, es).rows, entered);
      newest.Some? && newest.value >= es[i].sight.stamp
  {
    var n := |es| - 1;
    var before, after := After(cfg, es[..n]).rows, After(cfg, es).rows;
    RowsAfter(cfg, es, entered);
    StampsGrow(es, i, n);
    if i == n { AdvanceNotBeforeEntry(cfg, es, i, entered); }
    hide After, FiresAdvance, NewestAdvance, InOrder, Stamped, Advances;
    if after != before { AdvancesSnoc(before, after[|after| - 1], entered); }
  }

  lemma FiresInFront(cfg: Settings, es: seq<Event>, i: nat, entered: int)
    requires es != [] && i < |es| - 1 && FiresAdvance(cfg, es, i, entered)
    ensures FiresAdvance(cfg, es[..|es| - 1], i, entered)
  {
    assert es[..|es| - 1][..i] == es[..i];
  }

  lemma FrontInOrder(es: seq<Event>)
    requires es != [] && InOrder(es)
    ensures InOrder(es[..|es| - 1])
  {
    assert forall e <- es[..|es| - 1] :: e in es;
  }

  lemma StampsGrow(es: seq<Event>, i: nat, j: nat)
    requires InOrder(es) && i <= j < |es| && es[i].Patrol?
    ensures es[i].sight.stamp >= es[i].sight.now
    ensures es[j].Patrol? ==> es[i].sight.stamp <= es[j].sight.stamp
  {
    assert es[i] in es && es[j] in es;
  }

  // Two re-nudges for one acceptance are a window apart, and the first comes no
  // sooner than a window after entry.
  lemma AdvanceIsSpaced(cfg: Settings, es: seq<Event>, i: nat, j: nat, entered: int)
    requires InOrder(es) && cfg.advanceSeconds >= 0 && i < j
    requires FiresAdvance(cfg, es, i, entered) && FiresAdvance(cfg, es, j, entered)
    ensures es[i].sight.now - entered >= cfg.advanceSeconds
    ensures es[j].sight.now - es[i].sight.stamp >= cfg.advanceSeconds
  {
    StampsGrow(es, i, j);
    AdvanceNotBeforeEntry(cfg, es, i, entered);
    AdvanceDue(cfg, es, j, entered);
    var front := es[..j];
    assert front[..i] == es[..i];
    assert forall e <- front :: e in es;
    assert InOrder(front);
    NewestSince(cfg, front, i, entered);
    hide After, NewestAdvance, Advances;
  }

  // ── a granted head that moved ───────────────────────────────────────────

  // The store and the daemon's view of one subtask.
  datatype Scene = Scene(db: Db, watched: Watched)

  predicate Patrolled(s: State) {
    s == InProgress || s == VerifyPending || s == ReviewPending || s == ReviewFailed || s == ReviewPassed
    || s == AcceptancePassed || s == MergePending || s == NeedsRebase
  }

  // The row as a patrol lists it, for a subtask whose branch is known.
  function Listed(row: SubtaskRow, entered: int): Sub {
    Sub(row.state, row.approved, true, row.pr.Some?, entered)
  }

  function PatrolOnce(c: Scene, key: Key, entered: int, cfg: Settings, s: Sight): Scene {
    if key !in c.db.subs || !Patrolled(c.db.subs[key].state) then c
    else
      var step := Visit(c.watched, Listed(c.db.subs[key], entered), cfg, s);
      Scene(StoreAfter(c.db, key, step.mark), step.after)
  }

  // Patrols with what each sees and the row's entry time at it.
  function PatrolAll(c: Scene, key: Key, cfg: Settings, looks: seq<(int, Sight)>): Scene {
    if looks == [] then c
    else
      var last := looks[|looks| - 1];
      PatrolOnce(PatrolAll(c, key, cfg, looks[..|looks| - 1]), key, last.0, cfg, last.1)
  }

  // Queued and granted, and the branch is at another commit by now.
  predicate GrantMoved(db: Db, key: Key, s: Sight) {
    && key.task in db.tasks && key in db.subs
    && Drifted(Listed(db.subs[key], 0), s)
  }

  // One patrol of it sends the subtask back, unless the default rebase cap is
  // reached: then nothing whatever happens.
  lemma DriftSendsBackIff(c: Scene, key: Key, entered: int, cfg: Settings, s: Sight)
    requires GrantMoved(c.db, key, s)
    ensures var after := PatrolOnce(c, key, entered, cfg, s);
      && (after == c <==> c.db.subs[key].rebaseRounds >= MAX_REBASE_ROUNDS)
      && (after != c ==> after.watched == c.watched && after.db.subs[key] == Moved(c.db.subs[key], NeedsRebase))
  {
    assert Visit(c.watched, Listed(c.db.subs[key], entered), cfg, s) == Step(c.watched, Mark(Drift, false, false));
    hide Evaluate, HasRow, AllMerged;
  }

  // A patrol of a subtask that left the queue does not bring it back there.
  lemma NoPatrolQueues(c: Scene, key: Key, entered: int, cfg: Settings, s: Sight)
    requires key.task in c.db.tasks && key in c.db.subs && c.db.subs[key].state != MergePending
    ensures var after := PatrolOnce(c, key, entered, cfg, s).db;
      key.task in after.tasks && key in after.subs && after.subs[key].state != MergePending
  {
    hide Visit, Evaluate, HasRow, AllMerged;
  }

  // However many patrols see the granted head moved: the subtask leaves the
  // queue if and only if it had a default rebase round left. If not, it stays in
  // merge_pending, no patrol counts towards a stall and none escalates.
  lemma {:induction false} DriftStrandsIff(c: Scene, key: Key, cfg: Settings, looks: seq<(int, Sight)>)
    requires key.task in c.db.tasks && key in c.db.subs
    requires looks != [] && forall i :: 0 <= i < |looks| ==> GrantMoved(c.db, key, looks[i].1)
    ensures var end := PatrolAll(c, key, cfg, looks);
      && key.task in end.db.tasks && key in end.db.subs
      && (end.db.subs[key].state == MergePending <==> c.db.subs[key].rebaseRounds >= MAX_REBASE_ROUNDS)
      && (c.db.subs[key].rebaseRounds >= MAX_REBASE_ROUNDS ==> end == c)
    decreases |looks|
  {
    var front, last := looks[..|looks| - 1], looks[|looks| - 1];
    assert GrantMoved(c.db, key, last.1);
    if front == [] {
      assert PatrolAll(c, key, cfg, front) == c;
      DriftSendsBackIff(c, key, last.0, cfg, last.1);
    } else {
      DriftStrandsIff(c, key, cfg, front);
      var mid := PatrolAll(c, key, cfg, front);
      if c.db.subs[key].rebaseRounds >= MAX_REBASE_ROUNDS {
        DriftSendsBackIff(c, key, last.0, cfg, last.1);
      } else {
        NoPatrolQueues(mid, key, last.0, cfg, last.1);
      }
    }
    hide PatrolOnce, Drifted;
  }
}
