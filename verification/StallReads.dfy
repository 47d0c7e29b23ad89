/**
 What kind a patrol of one subtask is (module StallPatrol), told from what it
 and the patrols before it read - not from the daemon's health record.
 */
module StallReads {
  import opened Basics
  import opened Fsm
  import opened StallPatrol
  import opened StallOutcomes

  // Every read the row calls for failed: the branch head and the PR only when it
  // has them, the transition log always.
  predicate ReadNothing(sub: Sub, s: Sight) {
    (sub.branch ==> s.head.None?) && (sub.pr ==> s.prTs.None?) && !s.transitionOk
  }

  // The timestamps a patrol got hold of.
  function TimesRead(sub: Sub, s: Sight): set<int> {
    (if sub.pr && s.prTs.Some? then {s.prTs.value} else {})
    + (if s.transitionOk && s.transitionTs.Some? then {s.transitionTs.value} else {})
  }

  // The later of them.
  function NewestRead(sub: Sub, s: Sight): (t: Option<int>)
    ensures t.None? <==> TimesRead(sub, s) == {}
    ensures t.Some? ==> t.value in TimesRead(sub, s) && forall u <- TimesRead(sub, s) :: u <= t.value
  {
    var log := s.transitionOk && s.transitionTs.Some?;
    if sub.pr && s.prTs.Some? && !(log && s.transitionTs.value > s.prTs.value) then s.prTs
    else if log then s.transitionTs else None
  }

  // A patrol that was measured: released to the counter, with a read that worked.
  predicate Measured(cfg: Settings, es: seq<Event>, i: nat)
    requires i < |es|
  {
    && es[i].Patrol?
    && Released(After(cfg, es[..i]).rows, es[i].sub, cfg, es[i].sight)
    && !ReadNothing(es[i].sub, es[i].sight)
  }

  // The last head a measured patrol read; "" before the first.
  function LastHead(cfg: Settings, es: seq<Event>): Sha {
    if es == [] then ""
    else
      var n := |es| - 1;
      if Measured(cfg, es, n) && es[n].sub.branch && es[n].sight.head.Some?
      then es[n].sight.head.value else LastHead(cfg, es[..n])
  }

  // The newest time of the last measured patrol that read one.
  function LastTime(cfg: Settings, es: seq<Event>): Option<int> {
    if es == [] then None
    else
      var n := |es| - 1;
      if Measured(cfg, es, n) && NewestRead(es[n].sub, es[n].sight).Some?
      then NewestRead(es[n].sub, es[n].sight) else LastTime(cfg, es[..n])
  }

  // Patrols in a row, up to the last measured one, that could read nothing.
  function BlindPatrols(cfg: Settings, es: seq<Event>): nat {
    if es == [] then 0
    else
      var n := |es| - 1;
      var blind := es[n].Patrol? && Released(After(cfg, es[..n]).rows, es[n].sub, cfg, es[n].sight);
      if Measured(cfg, es, n) then 0 else BlindPatrols(cfg, es[..n]) + if blind then 1 else 0
  }

  // A head other than the last one read, or a time past the last one read.
  predicate SawNews(cfg: Settings, es: seq<Event>, sub: Sub, s: Sight) {
    || (sub.branch && s.head.Some? && s.head.value != LastHead(cfg, es))
    || exists t <- TimesRead(sub, s) :: LastTime(cfg, es).None? || t > LastTime(cfg, es).value
  }

  // Queued and granted at one commit, and the branch is seen at another.
  predicate GrantLeftBehind(sub: Sub, s: Sight) {
    && sub.state == MergePending && sub.approved.Some? && sub.approved.value != ""
    && sub.branch && s.head.Some? && s.head.value != sub.approved.value
  }

  lemma LatestIsNewestRead(sub: Sub, s: Sight)
    ensures LatestTs(sub, s) == NewestRead(sub, s)
    ensures AllReadsFailed(sub, s) <==> ReadNothing(sub, s)
  {
  }

  // One patrol against the health record it finds.
  lemma KindFromHealth(w: Watched, sub: Sub, cfg: Settings, s: Sight)
    ensures var h, step := if w.health.Some? then w.health.value else NEW_HEALTH, Visit(w, sub, cfg, s);
      var released := Released(w.rows, sub, cfg, s);
      var news := || (sub.branch && s.head.Some? && s.head.value != h.lastHead)
                  || (NewestRead(sub, s).Some? && (h.lastTs.None? || NewestRead(sub, s).value > h.lastTs.value));
      && (step.mark.kind == Drift <==> GrantLeftBehind(sub, s))
      && (step.mark.kind == Renudge <==> !GrantLeftBehind(sub, s) && !released)
      && (step.mark.kind == NoData <==> released && ReadNothing(sub, s))
      && (step.mark.kind == Progress <==> released && !ReadNothing(sub, s) && news)
      && (step.mark.kind == Stuck <==> released && !ReadNothing(sub, s) && !news)
      && (step.mark.landed <==> step.mark.attempted && s.landed)
      && (if released && !ReadNothing(sub, s) then
            && step.after.health.Some?
            && step.after.health.value.lastHead == (if sub.branch && s.head.Some? then s.head.value else h.lastHead)
            && step.after.health.value.lastTs ==
                 (if NewestRead(sub, s).Some? then NewestRead(sub, s) else h.lastTs)
          else if step.after.health.None? then w.health.None?
          else step.after.health.value.lastHead == h.lastHead && step.after.health.value.lastTs == h.lastTs)
      && (step.after.health.Some? ==>
            step.after.health.value.noData ==
              (if released && !ReadNothing(sub, s) then 0 else h.noData + if released then 1 else 0))
      && (step.after.health.None? ==> w.health.None? && !released)
  {
    LatestIsNewestRead(sub, s);
    HandsOverIff(w, sub, cfg, s);
    hide Released, Owner, NewestRead, TimesRead;
  }

  // The baselines of the health record are the last reads of the run.
  lemma {:induction false} BaselinesAreLastReads(cfg: Settings, es: seq<Event>)
    ensures var h := After(cfg, es).health;
      (if h.Some? then h.value.lastHead else "") == LastHead(cfg, es)
      && (if h.Some? then h.value.lastTs else None) == LastTime(cfg, es)
      && (if h.Some? then h.value.noData else 0) == BlindPatrols(cfg, es)
    decreases |es|
  {
    if es != [] {
      var front, e := es[..|es| - 1], es[|es| - 1];
      BaselinesAreLastReads(cfg, front);
      if e.Patrol? {
        KindFromHealth(After(cfg, front), e.sub, cfg, e.sight);
      }
      hide Visit, Released, NewestRead, ReadNothing, GrantLeftBehind;
    }
  }

  lemma NewerTimeIff(sub: Sub, s: Sight, last: Option<int>)
    ensures (exists t <- TimesRead(sub, s) :: last.None? || t > last.value)
       <==> NewestRead(sub, s).Some? && (last.None? || NewestRead(sub, s).value > last.value)
  {
  }

  // Over every run: a patrol drifts exactly when the granted commit was left
  // behind, belongs to a re-nudge rung exactly when it is not released, and of
  // the others is no data when nothing could be read, progress when it read a
  // head or a time the run had not yet seen, and stuck when it did not.
  lemma KindIff(cfg: Settings, es: seq<Event>, sub: Sub, s: Sight)
    ensures var mark, released := Visit(After(cfg, es), sub, cfg, s).mark, Released(After(cfg, es).rows, sub, cfg, s);
      && (mark.kind == Drift <==> GrantLeftBehind(sub, s))
      && (mark.kind == Renudge <==> !GrantLeftBehind(sub, s) && !released)
      && (mark.kind == NoData <==> released && ReadNothing(sub, s))
      && (mark.kind == Progress <==> released && !ReadNothing(sub, s) && SawNews(cfg, es, sub, s))
      && (mark.kind == Stuck <==> released && !ReadNothing(sub, s) && !SawNews(cfg, es, sub, s))
      && (mark.landed <==> mark.attempted && s.landed)
  {
    BaselinesAreLastReads(cfg, es);
    KindFromHealth(After(cfg, es), sub, cfg, s);
    NewerTimeIff(sub, s, LastTime(cfg, es));
    hide Visit, Released, After, NewestRead, TimesRead, LastHead, LastTime;
  }

  // ── what a patrol does to the store ─────────────────────────────────────

  // One patrol of one listed subtask: an escalation that landed puts it in
  // blocked by the watchdog's hand, drift sends it back while the default rounds
  // last, and any other patrol - an escalation tried in vain included - leaves
  // the store alone.
  lemma PatrolWrites(c: Scene, key: Key, entered: int, cfg: Settings, s: Sight)
    requires key.task in c.db.tasks && key in c.db.subs && Patrolled(c.db.subs[key].state)
    ensures var row := c.db.subs[key];
      var mark := Visit(c.watched, Listed(row, entered), cfg, s).mark;
      var after := PatrolOnce(c, key, entered, cfg, s).db;
      && (mark.landed ==>
            && after.subs == c.db.subs[key := row.(state := Blocked)]
            && after.log == c.db.log + [LogRow(key, row.state, Blocked, Watchdog, None)])
      && (mark.kind == Drift && row.rebaseRounds < MAX_REBASE_ROUNDS ==>
            && after.subs == c.db.subs[key := row.(state := NeedsRebase, rebaseRounds := row.rebaseRounds + 1)]
            && after.log == c.db.log + [LogRow(key, row.state, NeedsRebase, Mergemaster, None)])
      && (!mark.landed && !(mark.kind == Drift && row.rebaseRounds < MAX_REBASE_ROUNDS) ==> after == c.db)
  {
    LandedOnlyStuck(c.watched, Listed(c.db.subs[key], entered), cfg, s);
    BlocksIt(c.db, key);
    if c.db.subs[key].state == MergePending { SendsItBack(c.db, key); }
    hide Visit, Transition;
  }

  lemma BlocksIt(db: Db, key: Key)
    requires key.task in db.tasks && key in db.subs && Patrolled(db.subs[key].state)
    ensures var row, after := db.subs[key], Transition(db, BlockCall(key)).db;
      after.subs == db.subs[key := row.(state := Blocked)]
      && after.log == db.log + [LogRow(key, row.state, Blocked, Watchdog, None)]
  {
    hide Evaluate, HasRow, AllMerged, Targets;
  }

  lemma SendsItBack(db: Db, key: Key)
    requires key.task in db.tasks && key in db.subs && db.subs[key].state == MergePending
    ensures var row, after := db.subs[key], Transition(db, DriftCall(key)).db;
      if row.rebaseRounds < MAX_REBASE_ROUNDS
      then after.subs == db.subs[key := row.(state := NeedsRebase, rebaseRounds := row.rebaseRounds + 1)]
           && after.log == db.log + [LogRow(key, row.state, NeedsRebase, Mergemaster, None)]
      else after == db
  {
    hide Evaluate, HasRow, AllMerged;
  }

  lemma LandedOnlyStuck(w: Watched, sub: Sub, cfg: Settings, s: Sight)
    ensures Visit(w, sub, cfg, s).mark.landed ==> Visit(w, sub, cfg, s).mark.kind == Stuck
    ensures Visit(w, sub, cfg, s).mark.kind == Drift ==> sub.state == MergePending
  {
    hide Owner, Newer, AllReadsFailed;
  }
}
