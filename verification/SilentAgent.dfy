/**
 An agent that stopped answering, as the nudge patrol (module NudgePatrol) sees
 it through its read window (agents/watchdog.py): which patrols nudge it, and
 when it drops out of sight.
 */
module SilentAgent {
  import opened Basics
  import opened PageWalk
  import opened NudgePatrol

  // ── the configuration ───────────────────────────────────────────────────

  // stale_threshold_seconds and the overrides for roles.
  datatype Thresholds = Thresholds(standard: nat, roles: map<string, int>)

  // _threshold_for
  function ThresholdFor(t: Thresholds, role: string): int {
    if role in t.roles then t.roles[role] else t.standard
  }

  // _max_window
  ghost function Largest(t: Thresholds): (n: nat)
    ensures t.standard <= n && forall r <- t.roles :: t.roles[r] <= n
    ensures n == t.standard || exists r <- t.roles :: t.roles[r] == n
    decreases |t.roles|
  {
    if t.roles == map[] then t.standard
    else
      var r :| r in t.roles;
      assert forall other <- t.roles :: other == r || other in t.roles - {r};
      Max(t.roles[r], Largest(t.(roles := t.roles - {r})))
  }

  // How far back a patrol reads.
  ghost function ReadWindow(t: Thresholds): (n: nat)
    ensures forall role :: ThresholdFor(t, role) <= n
  {
    2 * Largest(t)
  }

  datatype Agent = Agent(name: string, role: string, limits: Thresholds)

  // ── its patrols ─────────────────────────────────────────────────────────

  // What a patrol of this room sees of the agent: no message older than the
  // read window.
  ghost predicate Sees(agent: Agent, look: Look, room: seq<Msg>) {
    && look.signals == Scan(Window(room, look.now - ReadWindow(agent.limits)), agent.name)
    && look.threshold == ThresholdFor(agent.limits, agent.role)
  }

  // The agent was called, and has not spoken since.
  predicate Unanswered(agent: Agent, look: Look, room: seq<Msg>) {
    var called, spoke := Mentioned(room, agent.name), Spoke(room, agent.name);
    called.Some? && called.value <= look.now && (spoke.Some? ==> spoke.value.ts < called.value)
  }

  // Patrols of an agent that does not answer, each with the room as it then was.
  // After its dispatch only the nudges call it, and patrols follow each other
  // within the staleness threshold.
  ghost predicate Silent(cfg: Settings, agent: Agent, looks: seq<Look>, rooms: seq<seq<Msg>>) {
    && |rooms| == |looks|
    && (forall i :: 0 <= i < |looks| ==> Sees(agent, looks[i], rooms[i]) && Unanswered(agent, looks[i], rooms[i]))
    && InSequence(cfg, agent, looks, rooms)
  }

  predicate InSequence(cfg: Settings, agent: Agent, looks: seq<Look>, rooms: seq<seq<Msg>>)
    requires |rooms| == |looks|
  {
    forall i: nat :: i + 1 < |looks| ==> Follows(cfg, agent, looks, rooms, i)
  }

  predicate Follows(cfg: Settings, agent: Agent, looks: seq<Look>, rooms: seq<seq<Msg>>, i: nat)
    requires i + 1 < |looks| == |rooms|
  {
    && looks[i].now <= looks[i + 1].now <= looks[i].now + looks[i].threshold
    && var called, before := Mentioned(rooms[i + 1], agent.name), Mentioned(rooms[i], agent.name);
       if ActAt(cfg, looks, i).Nudged? then called.Some? && looks[i].now <= called.value else called == before
  }

  // The age of the newest mention in the room, seen or not.
  function Age(agent: Agent, look: Look, room: seq<Msg>): int
    requires Unanswered(agent, look, room)
  {
    look.now - Mentioned(room, agent.name).value
  }

  predicate Attempts(act: Act) {
    act.Nudged? || act == NudgeLost
  }

  // Nothing is sent.
  predicate Quiet(act: Act) {
    act == Skipped || act == Idle || act == Cooling || act.Confirmed?
  }

  ghost predicate NudgedBefore(cfg: Settings, looks: seq<Look>, j: nat)
    requires j <= |looks|
  {
    exists i: nat :: i < j && ActAt(cfg, looks, i).Nudged?
  }

  // What has left the window is as if it had never been said.
  lemma {:induction false} WindowedScan(room: seq<Msg>, since: int, name: string)
    ensures var called, spoke := Mentioned(room, name), Spoke(room, name);
      Scan(Window(room, since), name) == Signals(
        if spoke.Some? && spoke.value.ts >= since then spoke else None,
        if called.Some? && called.value >= since then called else None)
    decreases |room|
  {
    if room != [] {
      var front, last := room[..|room| - 1], room[|room| - 1];
      WindowedScan(front, since, name);
      var seen, before := Window(room, since), Window(front, since);
      if InWindow(last, since) {
        assert seen == before + [last] && seen[..|seen| - 1] == before;
      } else {
        assert seen == before;
      }
    }
  }

  // The agent was last seen `at`, unless that lies before the read window.
  predicate Shows(look: Look, at: int, window: nat) {
    && LastSeen(look.signals) == (if at >= look.now - window then Some(at) else None)
    && !Closes(look.signals)
  }

  // ── one patrol ──────────────────────────────────────────────────────────

  // What the daemon holds of the agent when a patrol begins.
  predicate Ready(st: Option<AgentState>, cfg: Settings, nudged: bool, age: int, at: int, threshold: int) {
    if !nudged then st.None?
    else
      && st.Some? && !st.value.escalated
      && ( || (st.value.nudgedAt.Some? && st.value.aliveAt.None? && age <= threshold)
           || (st.value.nudgedAt.None? && st.value.aliveAt == Some(at))
           || (st.value.nudgedAt.None? && st.value.aliveAt.None? && age > threshold && age >= cfg.suppression))
  }

  lemma ReadyActs(st: Option<AgentState>, cfg: Settings, nudged: bool, at: int, window: nat, look: Look)
    requires Ready(st, cfg, nudged, look.now - at, at, look.threshold) && look.threshold <= window
    requires Shows(look, at, window)
    ensures var act, age := Check(st, cfg, look).act, look.now - at;
      && (Attempts(act) <==> look.threshold < age <= window && (nudged ==> age >= cfg.suppression))
      && (act == Skipped <==> age > window) && (Attempts(act) || Quiet(act))
      && (look.send == Delivered ==> act != NudgeLost)
  {
  }

  lemma ReadyNext(
      st: Option<AgentState>, cfg: Settings, nudged: bool, at: int, window: nat, look: Look, at': int, now: int)
    requires Ready(st, cfg, nudged, look.now - at, at, look.threshold) && look.threshold <= window
    requires Shows(look, at, window)
    requires look.now <= now <= look.now + look.threshold
    requires if Check(st, cfg, look).act.Nudged? then look.now <= at' else at' == at
    ensures var c := Check(st, cfg, look);
      Ready(c.state, cfg, nudged || c.act.Nudged?, now - at', at', look.threshold)
  {
  }

  // ── runs ────────────────────────────────────────────────────────────────

  lemma SilentSignals(cfg: Settings, agent: Agent, looks: seq<Look>, rooms: seq<seq<Msg>>, j: nat)
    requires Silent(cfg, agent, looks, rooms) && j < |looks|
    ensures Unanswered(agent, looks[j], rooms[j])
    ensures Shows(looks[j], Mentioned(rooms[j], agent.name).value, ReadWindow(agent.limits))
    ensures looks[j].threshold == ThresholdFor(agent.limits, agent.role) <= ReadWindow(agent.limits)
  {
    assert Sees(agent, looks[j], rooms[j]) && Unanswered(agent, looks[j], rooms[j]);
    WindowedScan(rooms[j], looks[j].now - ReadWindow(agent.limits), agent.name);
  }

  lemma NudgedOneOn(cfg: Settings, looks: seq<Look>, j: nat)
    requires j < |looks|
    ensures NudgedBefore(cfg, looks, j + 1) <==> NudgedBefore(cfg, looks, j) || ActAt(cfg, looks, j).Nudged?
  {
    hide ActAt;
  }

  lemma AfterOneOn(cfg: Settings, looks: seq<Look>, j: nat)
    requires j < |looks|
    ensures After(cfg, looks[..j + 1]) == Check(After(cfg, looks[..j]), cfg, looks[j]).state
  {
    assert looks[..j + 1][..j] == looks[..j];
  }

  lemma {:induction false} SilentState(cfg: Settings, agent: Agent, looks: seq<Look>, rooms: seq<seq<Msg>>, j: nat)
    requires Silent(cfg, agent, looks, rooms) && j < |looks|
    ensures Unanswered(agent, looks[j], rooms[j])
    ensures Ready(After(cfg, looks[..j]), cfg, NudgedBefore(cfg, looks, j), Age(agent, looks[j], rooms[j]),
                  Mentioned(rooms[j], agent.name).value, looks[j].threshold)
    decreases j
  {
    SilentSignals(cfg, agent, looks, rooms, j);
    if j > 0 {
      var i := j - 1;
      assert Follows(cfg, agent, looks, rooms, i);
      SilentSignals(cfg, agent, looks, rooms, i);
      SilentState(cfg, agent, looks, rooms, i);
      AfterOneOn(cfg, looks, i);
      NudgedOneOn(cfg, looks, i);
      hide Check, Ready, Mentioned, NudgedBefore, After, Silent;
      ReadyNext(After(cfg, looks[..i]), cfg, NudgedBefore(cfg, looks, i), Mentioned(rooms[i], agent.name).value,
                ReadWindow(agent.limits), looks[i], Mentioned(rooms[j], agent.name).value, looks[j].now);
    }
  }

  // A patrol nudges such an agent exactly when the last mention is stale, still
  // inside the read window and, after the first nudge, a suppression period old.
  // It skips the agent exactly when the last mention has left the window, and
  // escalates it in no case.
  lemma NudgedIff(cfg: Settings, agent: Agent, looks: seq<Look>, rooms: seq<seq<Msg>>, j: nat)
    requires Silent(cfg, agent, looks, rooms) && j < |looks|
    ensures Unanswered(agent, looks[j], rooms[j])
    ensures var act, age := ActAt(cfg, looks, j), Age(agent, looks[j], rooms[j]);
      && (Attempts(act) <==> ThresholdFor(agent.limits, agent.role) < age <= ReadWindow(agent.limits)
                             && (NudgedBefore(cfg, looks, j) ==> age >= cfg.suppression))
      && (act == Skipped <==> age > ReadWindow(agent.limits)) && (Attempts(act) || Quiet(act))
      && (looks[j].send == Delivered ==> act != NudgeLost)
  {
    SilentSignals(cfg, agent, looks, rooms, j);
    SilentState(cfg, agent, looks, rooms, j);
    hide Check, Ready, Mentioned, NudgedBefore, After, Silent;
    ReadyActs(After(cfg, looks[..j]), cfg, NudgedBefore(cfg, looks, j), Mentioned(rooms[j], agent.name).value,
              ReadWindow(agent.limits), looks[j]);
  }

  // Without a nudge from patrol i on, patrol j finds the same last mention.
  lemma {:induction false} CalledLast(
      cfg: Settings, agent: Agent, looks: seq<Look>, rooms: seq<seq<Msg>>, i: nat, j: nat)
    requires Silent(cfg, agent, looks, rooms) && i <= j < |looks|
    requires forall k: nat :: i <= k < j ==> !ActAt(cfg, looks, k).Nudged?
    ensures Mentioned(rooms[j], agent.name) == Mentioned(rooms[i], agent.name) && looks[i].now <= looks[j].now
    decreases j
  {
    hide Mentioned, ActAt;
    if i < j {
      CalledLast(cfg, agent, looks, rooms, i, j - 1);
      assert Follows(cfg, agent, looks, rooms, j - 1);
    }
  }

  // A patrol that passes the agent over is followed by none that does not.
  lemma {:induction false} ForgottenForGood(
      cfg: Settings, agent: Agent, looks: seq<Look>, rooms: seq<seq<Msg>>, i: nat, j: nat)
    requires Silent(cfg, agent, looks, rooms) && i <= j < |looks|
    requires ActAt(cfg, looks, i) == Skipped
    ensures ActAt(cfg, looks, j) == Skipped
    decreases j
  {
    hide Mentioned, ActAt;
    forall k: nat | i <= k < j
      ensures !ActAt(cfg, looks, k).Nudged?
    {
      ForgottenForGood(cfg, agent, looks, rooms, i, k);
    }
    CalledLast(cfg, agent, looks, rooms, i, j);
    NudgedIff(cfg, agent, looks, rooms, i);
    NudgedIff(cfg, agent, looks, rooms, j);
  }

  // With a suppression period longer than the read window the first nudge is the
  // last: no later patrol sends anything, and those more than a window past the
  // next one do not see the agent. With one exactly as long, a second nudge takes
  // a patrol at the very moment the mention leaves the window.
  lemma NudgedOnce(cfg: Settings, agent: Agent, looks: seq<Look>, rooms: seq<seq<Msg>>, i: nat, j: nat)
    requires Silent(cfg, agent, looks, rooms) && i < j < |looks|
    requires ActAt(cfg, looks, i).Nudged? && cfg.suppression >= ReadWindow(agent.limits)
    ensures Unanswered(agent, looks[j], rooms[j])
    ensures !Quiet(ActAt(cfg, looks, j)) ==>
      cfg.suppression == ReadWindow(agent.limits) == Age(agent, looks[j], rooms[j])
    ensures cfg.suppression > ReadWindow(agent.limits) ==>
      looks[j].now - looks[i + 1].now > ReadWindow(agent.limits) ==> ActAt(cfg, looks, j) == Skipped
  {
    hide Mentioned, ActAt;
    NudgedIff(cfg, agent, looks, rooms, j);
    if cfg.suppression > ReadWindow(agent.limits) {
      forall k: nat | i + 1 <= k < j
        ensures !ActAt(cfg, looks, k).Nudged?
      {
        NudgedIff(cfg, agent, looks, rooms, k);
      }
      CalledLast(cfg, agent, looks, rooms, i + 1, j);
      SilentSignals(cfg, agent, looks, rooms, i + 1);
    }
  }

  // ── when the window is long enough ──────────────────────────────────────

  // Every nudge is delivered, and patrols come within `gap` of each other, the
  // first within `gap` of the dispatch.
  predicate Prompt(cfg: Settings, agent: Agent, looks: seq<Look>, rooms: seq<seq<Msg>>, gap: int) {
    && |rooms| == |looks| && (forall look <- looks :: look.send == Delivered)
    && (forall i: nat :: i + 1 < |looks| ==> looks[i + 1].now - looks[i].now <= gap)
    && (looks != [] ==> Unanswered(agent, looks[0], rooms[0]) && Age(agent, looks[0], rooms[0]) <= gap)
  }

  // The age at which a patrol nudges the agent again.
  function Cooldown(cfg: Settings, agent: Agent): int {
    Max(cfg.suppression, ThresholdFor(agent.limits, agent.role) + 1)
  }

  lemma {:induction false} NeverTooOld(
      cfg: Settings, agent: Agent, looks: seq<Look>, rooms: seq<seq<Msg>>, gap: int, j: nat)
    requires Silent(cfg, agent, looks, rooms) && Prompt(cfg, agent, looks, rooms, gap)
    requires cfg.suppression >= 1 && Cooldown(cfg, agent) + gap <= ReadWindow(agent.limits)
    requires j < |looks|
    ensures Unanswered(agent, looks[j], rooms[j])
    ensures Age(agent, looks[j], rooms[j]) < Cooldown(cfg, agent) + gap
    decreases j
  {
    hide Mentioned, ActAt, NudgedBefore;
    SilentSignals(cfg, agent, looks, rooms, j);
    if j > 0 {
      var i := j - 1;
      NeverTooOld(cfg, agent, looks, rooms, gap, i);
      NudgedIff(cfg, agent, looks, rooms, i);
      assert looks[i] in looks && looks[i + 1].now - looks[i].now <= gap;
      assert Follows(cfg, agent, looks, rooms, i);
    }
  }

  // With a read window that holds a cooldown and one patrol more, the agent is
  // nudged for ever: in every stretch of a run as long as that.
  lemma NudgedForever(cfg: Settings, agent: Agent, looks: seq<Look>, rooms: seq<seq<Msg>>, gap: int, i: nat, j: nat)
    requires Silent(cfg, agent, looks, rooms) && Prompt(cfg, agent, looks, rooms, gap)
    requires cfg.suppression >= 1 && Cooldown(cfg, agent) + gap <= ReadWindow(agent.limits)
    requires i <= j < |looks| && looks[j].now - looks[i].now >= Cooldown(cfg, agent) + gap
    ensures exists k: nat :: i <= k < j && ActAt(cfg, looks, k).Nudged?
  {
    hide Mentioned, ActAt, Prompt;
    if forall k: nat :: i <= k < j ==> !ActAt(cfg, looks, k).Nudged? {
      CalledLast(cfg, agent, looks, rooms, i, j);
      SilentSignals(cfg, agent, looks, rooms, i);
      SilentSignals(cfg, agent, looks, rooms, j);
      NeverTooOld(cfg, agent, looks, rooms, gap, j);
      assert false;
    }
  }

  // ── the default configuration ───────────────────────────────────────────

  const DEFAULTS := Settings(1800, 60)
  const PLANNER := Agent("planner", "planner", Thresholds(300, map["coder" := 900, "mergemaster" := 900]))

  lemma DefaultWindow()
    ensures ReadWindow(PLANNER.limits) == 1800 && ThresholdFor(PLANNER.limits, PLANNER.role) == 300
  {
    assert PLANNER.limits.roles["coder"] == 900;
    assert forall r <- PLANNER.limits.roles :: PLANNER.limits.roles[r] == 900;
  }

  // Dispatched at 0 and patrolled every 120 seconds, a send taking one.
  function DefaultRoom(k: nat): seq<Msg> {
    var dispatch := Msg("conductor", Some(0), {"planner"}, false);
    var nudge := Msg("watchdog", Some(361), {"planner"}, false);
    if k <= 2 then [dispatch] else [dispatch, nudge]
  }

  function DefaultLook(k: nat): Look {
    var now := 120 * (k + 1);
    Look(now, Scan(Window(DefaultRoom(k), now - 1800), "planner"), 300, Delivered, now + 1)
  }

  function DefaultLooks(n: nat): (looks: seq<Look>)
    ensures |looks| == n
  {
    seq(n, k requires 0 <= k => DefaultLook(k))
  }

  function DefaultRooms(n: nat): (rooms: seq<seq<Msg>>)
    ensures |rooms| == n
  {
    seq(n, k requires 0 <= k => DefaultRoom(k))
  }

  lemma DefaultLookIsSilent(k: nat)
    ensures Sees(PLANNER, DefaultLook(k), DefaultRoom(k)) && Unanswered(PLANNER, DefaultLook(k), DefaultRoom(k))
    ensures Mentioned(DefaultRoom(k), "planner") == Some(if k <= 2 then 0 else 361)
  {
    DefaultWindow();
    var room := DefaultRoom(k);
    ScanSnoc(room, 0, "planner");
    if k > 2 {
      ScanSnoc(room, 1, "planner");
    }
    assert room[..0] == [] && room[..|room|] == room;
    hide Window, ReadWindow;
  }

  lemma DefaultAt(n: nat, k: nat)
    requires k < n
    ensures DefaultLooks(n)[k] == DefaultLook(k) && DefaultRooms(n)[k] == DefaultRoom(k)
    ensures DefaultLook(k).now == 120 * (k + 1) && DefaultLook(k).threshold == 300 && DefaultLook(k).send == Delivered
  {
  }

  // Of the first n patrols just the third nudges; from the nineteenth on the
  // agent is skipped.
  ghost predicate NudgedAtTheThird(looks: seq<Look>, n: nat)
    requires n <= |looks|
  {
    forall j: nat :: j < n ==>
      && (ActAt(DEFAULTS, looks, j).Nudged? <==> j == 2) && (ActAt(DEFAULTS, looks, j) == Skipped <==> j >= 18)
  }

  // At default settings a planner that never answers is nudged just once, however
  // long it is patrolled: by the time a suppression period has passed the nudge
  // has left the read window.
  lemma {:induction false} DefaultsNudgeOnce(n: nat)
    ensures Silent(DEFAULTS, PLANNER, DefaultLooks(n), DefaultRooms(n)) && NudgedAtTheThird(DefaultLooks(n), n)
  {
    if n > 0 {
      hide *;
      DefaultsNudgeOnce(n - 1);
      DefaultGrows(n - 1);
      DefaultAct(n - 1);
    }
  }

  lemma ActsStay(n: nat)
    requires NudgedAtTheThird(DefaultLooks(n), n)
    ensures NudgedAtTheThird(DefaultLooks(n + 1), n)
  {
    assert DefaultLooks(n + 1)[..n] == DefaultLooks(n);
    ActsOfPrefix(DEFAULTS, DefaultLooks(n + 1), n);
    hide ActAt, DefaultLooks;
  }

  lemma DefaultFollows(n: nat, i: nat)
    requires i + 1 < n && (ActAt(DEFAULTS, DefaultLooks(n), i).Nudged? <==> i == 2)
    ensures Follows(DEFAULTS, PLANNER, DefaultLooks(n), DefaultRooms(n), i)
  {
    hide ActAt, Mentioned, DefaultRoom, DefaultLook, DefaultLooks, DefaultRooms, Sees, Unanswered;
    DefaultAt(n, i);
    DefaultAt(n, i + 1);
    DefaultLookIsSilent(i);
    DefaultLookIsSilent(i + 1);
  }

  lemma DefaultSees(n: nat, i: nat)
    requires i < n
    ensures Sees(PLANNER, DefaultLooks(n)[i], DefaultRooms(n)[i])
    ensures Unanswered(PLANNER, DefaultLooks(n)[i], DefaultRooms(n)[i])
  {
    hide *;
    DefaultAt(n, i);
    DefaultLookIsSilent(i);
  }

  lemma AllSee(n: nat)
    ensures forall i: nat :: i < |DefaultLooks(n)| ==>
      && Sees(PLANNER, DefaultLooks(n)[i], DefaultRooms(n)[i])
      && Unanswered(PLANNER, DefaultLooks(n)[i], DefaultRooms(n)[i])
  {
    hide *;
    var looks, rooms := DefaultLooks(n), DefaultRooms(n);
    forall i: nat | i < |looks|
      ensures Sees(PLANNER, looks[i], rooms[i]) && Unanswered(PLANNER, looks[i], rooms[i])
    {
      DefaultSees(n, i);
    }
  }

  lemma AllFollow(n: nat)
    requires NudgedAtTheThird(DefaultLooks(n + 1), n)
    ensures InSequence(DEFAULTS, PLANNER, DefaultLooks(n + 1), DefaultRooms(n + 1))
  {
    hide ActAt, DefaultLooks, DefaultRooms, Follows;
    var looks, rooms := DefaultLooks(n + 1), DefaultRooms(n + 1);
    forall i: nat | i + 1 < |looks|
      ensures Follows(DEFAULTS, PLANNER, looks, rooms, i)
    {
      DefaultFollows(n + 1, i);
    }
  }

  // Silent so far, and one patrol more.
  lemma DefaultGrows(n: nat)
    requires NudgedAtTheThird(DefaultLooks(n), n)
    ensures Silent(DEFAULTS, PLANNER, DefaultLooks(n + 1), DefaultRooms(n + 1))
    ensures NudgedAtTheThird(DefaultLooks(n + 1), n)
  {
    ActsStay(n);
    AllSee(n + 1);
    AllFollow(n);
    hide NudgedAtTheThird, ActAt, DefaultLooks, DefaultRooms, Sees, Unanswered, InSequence;
  }

  lemma DefaultAct(n: nat)
    requires Silent(DEFAULTS, PLANNER, DefaultLooks(n + 1), DefaultRooms(n + 1))
    requires NudgedAtTheThird(DefaultLooks(n + 1), n)
    ensures NudgedAtTheThird(DefaultLooks(n + 1), n + 1)
  {
    hide ActAt, Mentioned, Window, DefaultRoom, DefaultLook, DefaultLooks, DefaultRooms, ReadWindow, Sees, Silent;
    var looks := DefaultLooks(n + 1);
    DefaultWindow();
    DefaultAt(n + 1, n);
    DefaultLookIsSilent(n);
    NudgedIff(DEFAULTS, PLANNER, looks, DefaultRooms(n + 1), n);
    if n > 2 { assert ActAt(DEFAULTS, looks, 2).Nudged?; }
    assert NudgedBefore(DEFAULTS, looks, n) <==> n > 2;
  }
}
