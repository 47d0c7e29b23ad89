/**
 What the merge gate means: it opens exactly when every required leg has a row
 pinned to the head being merged, a decision once open stays open as the log
 grows, and a refusal that is only about SHAs is cured by re-earning verdicts.
 */
module Gate {
  import opened Basics
  import opened Fsm

  function PinnedOf(shas: seq<Option<Sha>>): set<Sha> {
    set s | s in shas && s.Some? :: s.value
  }

  lemma PinnedRowIff(log: seq<LogRow>, key: Key, to: State, shas: seq<Option<Sha>>)
    requires forall head :: head in shas <==> HasRow(log, key, to, head)
    ensures PinnedOf(shas) != {} <==> HasPinnedRowInto(log, key, to)
  {
    if PinnedOf(shas) != {} {
      var v :| v in PinnedOf(shas);
      assert HasRow(log, key, to, Some(v));
    }
    if HasPinnedRowInto(log, key, to) {
      var i :| 0 <= i < |log| && log[i].key == key && log[i].to == to && log[i].sha.Some?;
      assert HasRow(log, key, to, log[i].sha);
      assert log[i].sha.value in PinnedOf(shas);
    }
  }

  lemma RowSnoc(log: seq<LogRow>, r: LogRow, key: Key, to: State, head: Option<Sha>)
    ensures HasRow(log + [r], key, to, head)
       <==> HasRow(log, key, to, head) || (r.key == key && r.to == to && r.sha == head)
  {
    var all := log + [r];
    if HasRow(log, key, to, head) {
      var i :| 0 <= i < |log| && log[i].key == key && log[i].to == to && log[i].sha == head;
      assert all[i] == log[i];
    }
    if r.key == key && r.to == to && r.sha == head {
      assert all[|log|] == r;
    }
  }

  lemma RowIntoSnoc(log: seq<LogRow>, r: LogRow, key: Key, to: State)
    ensures HasRowInto(log + [r], key, to)
       <==> HasRowInto(log, key, to) || (r.key == key && r.to == to)
  {
    var all := log + [r];
    if HasRowInto(log, key, to) {
      var i :| 0 <= i < |log| && log[i].key == key && log[i].to == to;
      assert all[i] == log[i];
    }
    if r.key == key && r.to == to {
      assert all[|log|] == r;
    }
  }

  // No reason is produced exactly when every leg passed at this head.
  lemma {:induction false} NoReasonsIff(log: seq<LogRow>, key: Key, head: Option<Sha>, legs: seq<string>)
    ensures LegReasons(log, key, head, legs) == []
       <==> forall leg <- legs :: LegPassedAt(log, key, head, leg)
  {
    if legs != [] {
      var front, last := legs[..|legs| - 1], legs[|legs| - 1];
      NoReasonsIff(log, key, head, front);
      assert legs == front + [last];
      assert last in legs;
      forall leg | leg in legs
        ensures leg in front || leg == last
      {
      }
      assert LegReason(log, key, head, last) == [] <==> LegPassedAt(log, key, head, last);
    }
  }

  // The gate opens exactly when the task exists and either its snapshot is the
  // explicit [] or every required leg has a row pinned to this very head.
  lemma EligibleIffGatePasses(db: Db, key: Key, head: Option<Sha>)
    ensures Evaluate(db, key, head).eligible <==> GatePasses(db, key, head)
  {
    if key.task in db.tasks {
      NoReasonsIff(db.log, key, head, RequiredLegs(db.tasks[key.task]));
    }
  }

  lemma RowMonotone(log: seq<LogRow>, more: seq<LogRow>, key: Key, to: State, head: Option<Sha>)
    requires IsPrefix(log, more)
    ensures HasRow(log, key, to, head) ==> HasRow(more, key, to, head)
  {
    if HasRow(log, key, to, head) {
      var i :| 0 <= i < |log| && log[i].key == key && log[i].to == to && log[i].sha == head;
      assert more[i] == more[..|log|][i];
    }
  }

  // Appending rows never closes an open gate while the snapshot stands.
  lemma GateMonotone(before: Db, after: Db, key: Key, head: Option<Sha>)
    requires IsPrefix(before.log, after.log)
    requires key.task in after.tasks
    requires key.task in before.tasks ==>
               RequiredLegs(after.tasks[key.task]) == RequiredLegs(before.tasks[key.task])
    ensures GatePasses(before, key, head) ==> GatePasses(after, key, head)
  {
    if GatePasses(before, key, head) {
      var legs := RequiredLegs(before.tasks[key.task]);
      forall leg | leg in legs && legs != []
        ensures LegPassedAt(after.log, key, head, leg)
      {
        RowMonotone(before.log, after.log, key, PassState(leg).value, head);
      }
    }
  }

  // ── refusals that rework at the current head cures ──────────────────────

  predicate ShaShapedReason(r: Reason) {
    r.StaleVerdict? || r.UnpinnedVerdict?
  }

  predicate ShaShaped(reasons: seq<Reason>) {
    reasons != [] && forall r <- reasons :: ShaShapedReason(r)
  }

  // The rework path out of needs_rebase that re-records every leg at `head`.
  function ReearnPath(key: Key, caps: Caps, head: Option<Sha>): seq<Call> {
    [ Call(key, InProgress, Coder, caps, None),
      Call(key, VerifyPending, Coder, caps, None),
      Call(key, ReviewPending, Coder, caps, head),
      Call(key, ReviewPassed, Reviewer, caps, head),
      Call(key, AcceptancePassed, Verifier, caps, head) ]
  }

  function Queue(key: Key, caps: Caps, head: Option<Sha>): Call {
    Call(key, MergePending, Mergemaster, caps, head)
  }

  function RunAll(db: Db, calls: seq<Call>): Db
    decreases |calls|
  {
    if calls == [] then db else RunAll(Transition(db, calls[0]).db, calls[1..])
  }

  predicate AllApplied(db: Db, calls: seq<Call>)
    decreases |calls|
  {
    calls == [] ||
    ( Transition(db, calls[0]).outcome == Applied
      && AllApplied(Transition(db, calls[0]).db, calls[1..]))
  }

  predicate Curable(db: Db, key: Key, head: Option<Sha>)
    requires key.task in db.tasks
  {
    var legs := RequiredLegs(db.tasks[key.task]);
    legs == [] || (Pinned(head) && forall leg <- legs :: leg in KNOWN_LEGS)
  }

  // A reason list with an unknown leg shows it.
  lemma {:induction false} UnknownLegShows(
      log: seq<LogRow>, key: Key, head: Option<Sha>, legs: seq<string>, leg: string)
    requires leg in legs && leg !in KNOWN_LEGS
    ensures UnknownVerdict(leg) in LegReasons(log, key, head, legs)
  {
    var front, last := legs[..|legs| - 1], legs[|legs| - 1];
    assert legs == front + [last];
    if leg != last {
      UnknownLegShows(log, key, head, front, leg);
    }
  }

  // A table step with no cap and no gate in front of it.
  lemma PlainStep(db: Db, c: Call)
    requires c.key.task in db.tasks && c.key in db.subs
    requires IsAllowed(db.subs[c.key].state, c.role, c.next)
    requires db.subs[c.key].state != ReviewFailed
    requires c.next != MergePending && c.next != NeedsRebase && c.next != Merged
    ensures Transition(db, c).outcome == Applied
    ensures Transition(db, c).db ==
      Db(db.tasks, db.subs[c.key := Moved(db.subs[c.key], c.next)],
         db.log + [LogRow(c.key, db.subs[c.key].state, c.next, c.role, c.sha)], db.audit)
  {
  }

  lemma RunAllStep(db: Db, calls: seq<Call>)
    requires calls != []
    ensures RunAll(db, calls) == RunAll(Transition(db, calls[0]).db, calls[1..])
    ensures AllApplied(db, calls)
       <==> Transition(db, calls[0]).outcome == Applied && AllApplied(Transition(db, calls[0]).db, calls[1..])
  {
  }

  // A path of table steps from `from` that meets no cap and no gate.
  predicate PlainPath(from: State, key: Key, calls: seq<Call>)
    decreases |calls|
  {
    calls == [] ||
    var c := calls[0];
    && c.key == key && IsAllowed(from, c.role, c.next) && from != ReviewFailed
    && c.next != MergePending && c.next != NeedsRebase && c.next != Merged
    && PlainPath(c.next, key, calls[1..])
  }

  // Every step of such a path applies, and its row is on the log afterwards.
  lemma {:induction false} PlainPathRuns(db: Db, key: Key, calls: seq<Call>)
    requires key.task in db.tasks && key in db.subs
    requires PlainPath(db.subs[key].state, key, calls)
    ensures AllApplied(db, calls)
    ensures var end := RunAll(db, calls);
      && end.tasks == db.tasks && IsPrefix(db.log, end.log) && key in end.subs
      && end.subs[key].state == (if calls == [] then db.subs[key].state else calls[|calls| - 1].next)
      && forall c <- calls :: HasRow(end.log, key, c.next, c.sha)
    decreases |calls|
  {
    hide Transition, Evaluate, Targets;
    if calls != [] {
      var c := calls[0];
      PlainStep(db, c);
      var next := Transition(db, c).db;
      PlainPathRuns(next, key, calls[1..]);
      RunAllStep(db, calls);
      var end := RunAll(db, calls);
      assert next.log[|db.log|] == LogRow(key, db.subs[key].state, c.next, c.role, c.sha);
      assert HasRow(next.log, key, c.next, c.sha);
      RowMonotone(next.log, end.log, key, c.next, c.sha);
      PrefixTransitive(db.log, next.log, end.log);
      forall d | d in calls
        ensures HasRow(end.log, key, d.next, d.sha)
      {
        assert d == c || d in calls[1..];
      }
    }
  }

  lemma PrefixTransitive<T>(a: seq<T>, b: seq<T>, c: seq<T>)
    requires IsPrefix(a, b) && IsPrefix(b, c)
    ensures IsPrefix(a, c)
  {
    assert c[..|a|] == c[..|b|][..|a|];
  }

  // The queue edge is governed by the gate and nothing else.
  lemma QueueAppliesIff(db: Db, key: Key, caps: Caps, head: Option<Sha>)
    requires key.task in db.tasks && key in db.subs
    requires db.subs[key].state == ReviewPassed || db.subs[key].state == AcceptancePassed
    ensures Transition(db, Queue(key, caps, head)).outcome == Applied <==> GatePasses(db, key, head)
  {
    hide GatePasses, Evaluate;
    EligibleIffGatePasses(db, key, head);
  }

  lemma ReearnIsPlain(key: Key, caps: Caps, head: Option<Sha>)
    ensures PlainPath(NeedsRebase, key, ReearnPath(key, caps, head))
  {
    var p := ReearnPath(key, caps, head);
    assert p[1..][1..] == p[2..] && p[2..][1..] == p[3..] && p[3..][1..] == p[4..] && p[4..][1..] == [];
    assert PlainPath(ReviewPassed, key, p[4..]);
    assert PlainPath(ReviewPending, key, p[3..]);
    assert PlainPath(VerifyPending, key, p[2..]);
    assert PlainPath(InProgress, key, p[1..]);
  }

  // From needs_rebase the rework path is legal step by step, and the gate then
  // opens at `head` exactly when the head is pinned and every leg is known.
  lemma {:induction false} ReearnCuresIff(db: Db, key: Key, caps: Caps, head: Option<Sha>)
    requires key.task in db.tasks && key in db.subs && db.subs[key].state == NeedsRebase
    ensures AllApplied(db, ReearnPath(key, caps, head))
    ensures Transition(RunAll(db, ReearnPath(key, caps, head)), Queue(key, caps, head)).outcome == Applied
       <==> Curable(db, key, head)
  {
    hide Transition, Targets, PlainPath, AllApplied;
    var p := ReearnPath(key, caps, head);
    ReearnIsPlain(key, caps, head);
    PlainPathRuns(db, key, p);
    var end := RunAll(db, ReearnPath(key, caps, head));
    forall leg | leg in KNOWN_LEGS
      ensures LegPassedAt(end.log, key, head, leg)
    {
      assert p[2] in p && p[3] in p && p[4] in p;
    }
    QueueAppliesIff(end, key, caps, head);
  }

  // What the merge leg classes as SHA-shaped is always cured by that rework.
  lemma {:induction false} ShaShapedIsCurable(db: Db, key: Key, caps: Caps, head: Option<Sha>)
    requires key.task in db.tasks && key in db.subs && db.subs[key].state == NeedsRebase
    requires ShaShaped(Evaluate(db, key, head).reasons)
    ensures Transition(RunAll(db, ReearnPath(key, caps, head)), Queue(key, caps, head)).outcome == Applied
  {
    var legs, reasons := RequiredLegs(db.tasks[key.task]), Evaluate(db, key, head).reasons;
    assert reasons[0] in reasons && reasons[0] != NoHeadSha;
    assert reasons == LegReasons(db.log, key, head, legs);
    forall leg | leg in legs
      ensures leg in KNOWN_LEGS
    {
      if leg !in KNOWN_LEGS {
        UnknownLegShows(db.log, key, head, legs, leg);
        assert false;
      }
    }
    ReearnCuresIff(db, key, caps, head);
  }
}
