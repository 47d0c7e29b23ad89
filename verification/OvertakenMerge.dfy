/**
 A whole run, from an empty store, in which a merge invocation holding a valid
 grant records a commit nobody granted: its merge command fails, someone pushes
 another commit and merges that, and the second look finds the PR merged.
 */
module OvertakenMerge {
  import opened Basics
  import opened Fsm
  import opened Gate
  import opened MergeLeg
  import opened Interleaving
  import opened Witnesses

  // ── runs piece by piece ─────────────────────────────────────────────────

  predicate Leads(w: World, es: seq<Event>, z: World)
    decreases |es|
  {
    if es == [] then w == z else Enabled(w, es[0]) && Leads(Apply(w, es[0]), es[1..], z)
  }

  ghost predicate Reaches(w: World, z: World) {
    exists es :: Leads(w, es, z)
  }

  lemma {:induction false} LeadsOn(w: World, a: seq<Event>, m: World, b: seq<Event>, z: World)
    requires Leads(w, a, m) && Leads(m, b, z)
    ensures Leads(w, a + b, z)
    decreases |a|
  {
    hide Apply, Enabled;
    if a == [] {
      assert a + b == b;
    } else {
      assert (a + b)[1..] == a[1..] + b;
      LeadsOn(Apply(w, a[0]), a[1..], m, b, z);
    }
  }

  lemma Then(w: World, m: World, z: World)
    requires Reaches(w, m) && Reaches(m, z)
    ensures Reaches(w, z)
  {
    hide Leads;
    var a :| Leads(w, a, m);
    var b :| Leads(m, b, z);
    LeadsOn(w, a, m, b, z);
  }

  lemma By(w: World, e: Event)
    requires Enabled(w, e)
    ensures Reaches(w, Apply(w, e))
  {
    assert [e][1..] == [];
    assert Leads(Apply(w, e), [], Apply(w, e));
    hide Apply, Enabled;
    assert Leads(w, [e], Apply(w, e));
  }

  // The worlds such a run passes through.
  lemma {:induction false} Trail(w: World, es: seq<Event>, z: World) returns (ws: seq<World>)
    requires Leads(w, es, z)
    ensures |ws| == |es| + 1 && ws[0] == w && ws[|es|] == z
    ensures forall i :: 0 <= i < |es| ==> Enabled(ws[i], es[i]) && ws[i + 1] == Apply(ws[i], es[i])
    decreases |es|
  {
    hide Apply, Enabled;
    if es == [] {
      ws := [w];
    } else {
      var rest := Trail(Apply(w, es[0]), es[1..], z);
      ws := [w] + rest;
      forall i | 0 <= i < |es|
        ensures Enabled(ws[i], es[i]) && ws[i + 1] == Apply(ws[i], es[i])
      {
        if i > 0 { assert ws[i] == rest[i - 1] && es[i] == es[1..][i - 1] && ws[i + 1] == rest[i]; }
      }
    }
  }

  // ── the stages ──────────────────────────────────────────────────────────

  const OPEN_PR := Pr(Open, Some(GRANTED), Mergeable)
  const OVERTAKEN_PR := Pr(PrMerged, Some(OTHER), Unknown)
  const QUEUED_LOG: seq<LogRow> := FIRST_LAP + [QUEUEING]
  const ASKED_ROW := QUEUED_ROW.(requested := Some(GRANTED))
  const ASKED_AUDIT: seq<AuditRow> := AUDIT + [ApprovalRequest(KEY, Some(GRANTED))]

  const BOUND_DB := Stage(BOUND_ROW, FIRST_LAP, AUDIT)
  const QUEUED_DB := Stage(QUEUED_ROW, QUEUED_LOG, AUDIT)
  const ASKED_DB := Stage(ASKED_ROW, QUEUED_LOG, ASKED_AUDIT)
  const GRANTED_DB := Stage(GRANTED_ROW, QUEUED_LOG, GRANT_AUDIT)

  const EMPTY_WORLD := World(Db(map[], map[], [], []), map[], map[], map[])

  function With(db: Db, pr: Pr, legs: map<nat, Proc>, approvals: map<nat, Approval>): World {
    World(db, map[7 := pr], legs, approvals)
  }

  function One(leg: Leg): map<nat, Proc> {
    map[0 := Proc(ARGS, leg)]
  }

  // Some run from the empty store comes to this world.
  ghost predicate Comes(w: World) {
    Reaches(EMPTY_WORLD, w)
  }

  lemma NextBy(w: World, e: Event)
    requires Comes(w) && Enabled(w, e)
    ensures Comes(Apply(w, e))
  {
    By(w, e);
    hide Reaches, Apply, Enabled;
    Then(EMPTY_WORLD, w, Apply(w, e));
  }

  // An action of the only invocation, the PR untouched.
  lemma Acts(db: Db, pr: Pr, approvals: map<nat, Approval>, leg: Leg, obs: Obs, r: StepResult)
    requires Comes(With(db, pr, One(leg), approvals))
    requires Fits(leg, obs) && !obs.GhOk?
    requires obs.Saw? ==> obs.snap == Some(pr) && (leg.Look? || leg.Resnap?) && leg.pr == 7
    requires LegStep(db, ARGS, leg, obs) == r
    ensures Comes(With(r.db, pr, One(r.leg), approvals))
  {
    hide LegStep, Comes;
    var w, e := With(db, pr, One(leg), approvals), LegAct(0, obs, false);
    NextBy(w, e);
    assert Apply(w, e) == With(r.db, pr, One(r.leg), approvals);
  }

  // ── the run ─────────────────────────────────────────────────────────────

  function Only(db: Db): World {
    World(db, map[], map[], map[])
  }

  lemma {:induction false} RowsCome(db: Db, rows: seq<LogRow>)
    requires Comes(Only(db)) && forall r <- rows :: r.to != Merged
    ensures Comes(Only(RunAll(db, CallsOf(rows))))
    decreases |rows|
  {
    hide Transition, Comes;
    if rows != [] {
      var call, rest := RowCall(rows[0]), rows[1..];
      assert rows[0] in rows && forall r <- rest :: r in rows;
      NextBy(Only(db), Act(call));
      assert CallsOf(rows)[1..] == CallsOf(rest);
      RowsCome(Transition(db, call).db, rest);
    }
  }

  lemma SeededComes()
    ensures Comes(Only(Stage(FRESH_ROW, [], [])))
  {
    assert Leads(EMPTY_WORLD, [], EMPTY_WORLD);
    hide Reaches;
    NextBy(EMPTY_WORLD, Register("t", TASK));
    var registered := Apply(EMPTY_WORLD, Register("t", TASK));
    NextBy(registered, EnsureRow(KEY));
    assert Apply(registered, EnsureRow(KEY)) == Only(Stage(FRESH_ROW, [], []));
  }

  lemma ReviewedComes()
    ensures Comes(Only(Stage(FRESH_ROW.(state := ReviewPassed), FIRST_LAP, [])))
  {
    hide *;
    SeededComes();
    FirstLapRuns();
    RowsCome(Stage(FRESH_ROW, [], []), FIRST_LAP);
  }

  lemma BoundComes()
    ensures Comes(With(BOUND_DB, OPEN_PR, One(Start), map[]))
  {
    hide Comes;
    ReviewedComes();
    var reviewed := Only(Stage(FRESH_ROW.(state := ReviewPassed), FIRST_LAP, []));
    NextBy(reviewed, BindPr(KEY, 7));
    assert Apply(reviewed, BindPr(KEY, 7)) == Only(BOUND_DB);
    NextBy(Only(BOUND_DB), Outside(map[7 := OPEN_PR]));
    NextBy(With(BOUND_DB, OPEN_PR, map[], map[]), LegStart(0, ARGS));
  }

  // The first invocation queues the subtask ...
  lemma QueuedComes()
    ensures Comes(With(QUEUED_DB, OPEN_PR, One(ReadQueue(7, OPEN_PR)), map[]))
  {
    hide Comes, Transition;
    BoundComes();
    Acts(BOUND_DB, OPEN_PR, map[], Start, Quiet, StepResult(BOUND_DB, Look(7, BOUND_ROW)));
    Acts(BOUND_DB, OPEN_PR, map[], Look(7, BOUND_ROW), Saw(Some(OPEN_PR)), StepResult(BOUND_DB, Enqueue(7, OPEN_PR)));
    Witnesses.Queues(AUDIT);
    assert MergemasterCall(ARGS, MergePending, Head(OPEN_PR)) == RowCall(QUEUEING);
    Acts(BOUND_DB, OPEN_PR, map[], Enqueue(7, OPEN_PR), Quiet, StepResult(QUEUED_DB, ReadQueue(7, OPEN_PR)));
  }

  lemma PendingHere()
    ensures PendingSha(QUEUED_LOG, KEY) == Some(GRANTED)
  {
    assert QUEUED_LOG[|QUEUED_LOG| - 1] == QUEUEING;
  }

  // ... and asks for approval.
  lemma AskedComes()
    ensures Comes(With(ASKED_DB, OPEN_PR, One(Done(AwaitingSent)), map[]))
  {
    hide Comes, Transition;
    QueuedComes();
    PendingHere();
    hide PendingSha;
    var asks, sends := ReadGrant(7, OPEN_PR, Some(GRANTED)), Send(7, OPEN_PR, Some(GRANTED));
    Acts(QUEUED_DB, OPEN_PR, map[], ReadQueue(7, OPEN_PR), Quiet, StepResult(QUEUED_DB, asks));
    Acts(QUEUED_DB, OPEN_PR, map[], asks, Quiet, StepResult(QUEUED_DB, sends));
    Acts(QUEUED_DB, OPEN_PR, map[], sends, Sent(true), StepResult(QUEUED_DB, Mark(Some(GRANTED))));
    assert MarkRequested(QUEUED_DB, KEY, Some(GRANTED)) == ASKED_DB;
    Acts(QUEUED_DB, OPEN_PR, map[], Mark(Some(GRANTED)), Quiet, StepResult(ASKED_DB, Done(AwaitingSent)));
  }

  const ASK := Ask(KEY, GRANTED, None)
  const GIVEN: map<nat, Approval> := map[0 := Granting({})]

  // A human's approval finds the request and the head it named ...
  lemma ApprovalComes()
    ensures Comes(With(ASKED_DB, OPEN_PR, map[], map[0 := Granting({ASK})]))
  {
    hide Comes;
    AskedComes();
    var w0 := With(ASKED_DB, OPEN_PR, One(Done(AwaitingSent)), map[]);
    NextBy(w0, LegCrash(0));
    var w1 := With(ASKED_DB, OPEN_PR, map[], map[]);
    assert Apply(w0, LegCrash(0)) == w1;
    NextBy(w1, ApproveStart(0, "t", 7));
    assert Asks(ASKED_DB, "t", 7) == {ASK};
    var w2 := With(ASKED_DB, OPEN_PR, map[], map[0 := Resolving(7, {ASK})]);
    assert Apply(w1, ApproveStart(0, "t", 7)) == w2;
    NextBy(w2, ApproveLook(0, Some(GRANTED)));
    var w3 := Apply(w2, ApproveLook(0, Some(GRANTED)));
    assert w3.approvals[0].todo == {ASK};
    assert w3 == With(ASKED_DB, OPEN_PR, map[], map[0 := Granting({ASK})]);
  }

  // ... and grants it; a second invocation starts.
  lemma GrantedComes()
    ensures Comes(With(GRANTED_DB, OPEN_PR, One(Start), GIVEN))
  {
    hide Comes;
    ApprovalComes();
    var w3 := With(ASKED_DB, OPEN_PR, map[], map[0 := Granting({ASK})]);
    NextBy(w3, ApproveOne(0, ASK));
    assert RecordGrant(ASKED_DB, KEY, GRANTED) == GRANTED_DB;
    var w4 := With(GRANTED_DB, OPEN_PR, map[], GIVEN);
    assert {ASK} - {ASK} == {};
    assert Apply(w3, ApproveOne(0, ASK)) == w4;
    NextBy(w4, LegStart(0, ARGS));
    assert Apply(w4, LegStart(0, ARGS)) == With(GRANTED_DB, OPEN_PR, One(Start), GIVEN);
  }

  // It executes at the granted commit, and the merge command fails.
  lemma FailedComes()
    ensures Comes(With(GRANTED_DB, OPEN_PR, One(Resnap(7, GRANTED, false)), GIVEN))
  {
    hide Comes, Transition;
    GrantedComes();
    PendingHere();
    hide PendingSha;
    var looks, asks, runs := Look(7, GRANTED_ROW), ReadGrant(7, OPEN_PR, Some(GRANTED)), Execute(7, OPEN_PR, GRANTED);
    Acts(GRANTED_DB, OPEN_PR, GIVEN, Start, Quiet, StepResult(GRANTED_DB, looks));
    Acts(GRANTED_DB, OPEN_PR, GIVEN, looks, Saw(Some(OPEN_PR)), StepResult(GRANTED_DB, ReadQueue(7, OPEN_PR)));
    Acts(GRANTED_DB, OPEN_PR, GIVEN, ReadQueue(7, OPEN_PR), Quiet, StepResult(GRANTED_DB, asks));
    Acts(GRANTED_DB, OPEN_PR, GIVEN, asks, Quiet, StepResult(GRANTED_DB, runs));
    Acts(GRANTED_DB, OPEN_PR, GIVEN, runs, GhFailed(false), StepResult(GRANTED_DB, Resnap(7, GRANTED, false)));
  }

  const RECORDING := Record(Some(OTHER), GRANTED, MergedAfterFailure)

  // Someone pushes another commit and merges it, and the invocation looks again.
  lemma OvertakenComes()
    ensures Comes(With(GRANTED_DB, OVERTAKEN_PR, One(RECORDING), GIVEN))
  {
    hide Comes, Transition;
    FailedComes();
    var w := With(GRANTED_DB, OPEN_PR, One(Resnap(7, GRANTED, false)), GIVEN);
    NextBy(w, Outside(map[7 := OVERTAKEN_PR]));
    var leg := Resnap(7, GRANTED, false);
    assert Apply(w, Outside(map[7 := OVERTAKEN_PR])) == With(GRANTED_DB, OVERTAKEN_PR, One(leg), GIVEN);
    Acts(GRANTED_DB, OVERTAKEN_PR, GIVEN, leg, Saw(Some(OVERTAKEN_PR)), StepResult(GRANTED_DB, RECORDING));
  }

  // The subtask is merged on the record, at a commit other than the granted one.
  predicate Overtaken(w: World) {
    && KEY in w.db.subs && w.db.subs[KEY].state == Merged && w.db.subs[KEY].approved == Some(GRANTED)
    && w.db.log != [] && w.db.log[|w.db.log| - 1] == LogRow(KEY, MergePending, Merged, Mergemaster, Some(OTHER))
  }

  lemma RecordedComes()
    ensures exists w :: Comes(w) && Overtaken(w)
  {
    hide Comes;
    OvertakenComes();
    var r := LegStep(GRANTED_DB, ARGS, RECORDING, Quiet);
    var call := MergemasterCall(ARGS, Merged, Some(OTHER));
    assert Transition(GRANTED_DB, call).outcome == Applied;
    Acts(GRANTED_DB, OVERTAKEN_PR, GIVEN, RECORDING, Quiet, r);
    assert Overtaken(With(r.db, OVERTAKEN_PR, One(r.leg), GIVEN));
  }

  // So there is a run, in the sense of every theorem about interleavings, that
  // records as merged a commit nobody granted.
  lemma PostFailureExample() returns (ws: seq<World>, es: seq<Event>)
    ensures IsRun(ws, es) && Overtaken(ws[|es|])
  {
    RecordedComes();
    var w :| Comes(w) && Overtaken(w);
    es :| Leads(EMPTY_WORLD, es, w);
    ws := Trail(EMPTY_WORLD, es, w);
    hide Apply, Enabled, Leads, Overtaken;
  }
}
