/**
 The chat-recency rung (agents/watchdog.py): what one room's messages say about
 each agent, and the nudge-then-escalate state kept per agent.
 */
module NudgePatrol {
  import opened Basics
  import opened PageWalk

  datatype AgentState = AgentState(nudgedAt: Option<int>, nudgeCount: nat, escalated: bool, aliveAt: Option<int>)

  const NEW_STATE := AgentState(None, 0, false, None)

  datatype Settings = Settings(suppression: int, grace: int)

  // What the scan of a room says about one agent.
  datatype Signals = Signals(spoke: Option<Spoken>, mentioned: Option<int>)

  datatype Spoken = Spoken(ts: int, terminal: bool)

  datatype SendResult = Delivered | Undeliverable | Failed

  // One patrol of one agent: its time, its threshold, and how a send would go.
  datatype Look = Look(now: int, signals: Signals, threshold: int, send: SendResult, sentAt: int)

  datatype Act =
    | Skipped            // neither spoken nor mentioned
    | Untracked          // its newest word closes the protocol
    | Idle               // healthy, nothing on record
    | Confirmed(at: int) // healthy after a nudge
    | Cooling
    | Nudged(at: int)
    | NudgeLost
    | Waiting            // nudged; too early, or already escalated
    | Escalated
    | EscalationLost

  datatype Checked = Checked(state: Option<AgentState>, act: Act)

  // ── the scan of a room ──────────────────────────────────────────────────

  // The newest own message; of equally new ones, the first read.
  function Hear(before: Option<Spoken>, m: Msg, agent: string): Option<Spoken> {
    if m.ts.Some? && m.sender == agent && (before.None? || m.ts.value > before.value.ts)
    then Some(Spoken(m.ts.value, m.terminal)) else before
  }

  function Spoke(ms: seq<Msg>, agent: string): Option<Spoken> {
    if ms == [] then None else Hear(Spoke(ms[..|ms| - 1], agent), ms[|ms| - 1], agent)
  }

  // The newest mention by somebody else.
  function Notice(before: Option<int>, m: Msg, agent: string): Option<int> {
    if m.ts.Some? && m.sender != agent && agent in m.mentions && (before.None? || m.ts.value > before.value)
    then m.ts else before
  }

  function Mentioned(ms: seq<Msg>, agent: string): Option<int> {
    if ms == [] then None else Notice(Mentioned(ms[..|ms| - 1], agent), ms[|ms| - 1], agent)
  }

  lemma ScanSnoc(ms: seq<Msg>, i: nat, agent: string)
    requires i < |ms|
    ensures Spoke(ms[..i + 1], agent) == Hear(Spoke(ms[..i], agent), ms[i], agent)
    ensures Mentioned(ms[..i + 1], agent) == Notice(Mentioned(ms[..i], agent), ms[i], agent)
  {
    assert ms[..i + 1][..i] == ms[..i];
  }

  function Scan(ms: seq<Msg>, agent: string): Signals {
    Signals(Spoke(ms, agent), Mentioned(ms, agent))
  }

  function LastSeen(sig: Signals): Option<int> {
    match (sig.spoke, sig.mentioned)
    case (None, m) => m
    case (Some(s), None) => Some(s.ts)
    case (Some(s), Some(m)) => Some(Max(s.ts, m))
  }

  // Its own message is the newest signal and closes the protocol.
  predicate Closes(sig: Signals) {
    sig.spoke.Some? && (sig.mentioned.None? || sig.spoke.value.ts >= sig.mentioned.value) && sig.spoke.value.terminal
  }

  // ── one agent ───────────────────────────────────────────────────────────

  function SendNudge(st: Option<AgentState>, look: Look): Checked {
    if look.send != Delivered then Checked(st, NudgeLost)
    else
      var prior := if st.Some? then st.value else NEW_STATE;
      Checked(Some(prior.(nudgedAt := Some(look.sentAt), nudgeCount := prior.nudgeCount + 1)), Nudged(look.sentAt))
  }

  // Stale, and no cooldown in force.
  function OnStale(st: Option<AgentState>, cfg: Settings, look: Look): Checked {
    if st.None? || st.value.nudgedAt.None? then SendNudge(st, look)
    else if st.value.nudgeCount >= 1 && !st.value.escalated && look.now - st.value.nudgedAt.value >= cfg.grace then
      if look.send == Failed then Checked(st, EscalationLost)
      else Checked(Some(st.value.(escalated := true)), Escalated)
    else Checked(st, Waiting)
  }

  function OnHealthy(st: Option<AgentState>, lastSeen: int): Checked {
    if st.Some? && st.value.nudgedAt.Some? then
      Checked(Some(AgentState(None, 0, false, Some(lastSeen))), Confirmed(lastSeen))
    else if st.None? || st.value.aliveAt.None? then Checked(None, Idle)
    else Checked(st, Idle)
  }

  function Check(st: Option<AgentState>, cfg: Settings, look: Look): Checked {
    var seen := LastSeen(look.signals);
    if seen.None? then Checked(st, Skipped)
    else if Closes(look.signals) then Checked(None, Untracked)
    else if look.now - seen.value <= look.threshold then OnHealthy(st, seen.value)
    else if st.Some? && st.value.aliveAt.Some? then
      if look.now - st.value.aliveAt.value < cfg.suppression then Checked(st, Cooling)
      else OnStale(Some(st.value.(aliveAt := None)), cfg, look)
    else OnStale(st, cfg, look)
  }

  // ── the daemon ──────────────────────────────────────────────────────────

  function Get<T>(m: map<string, T>, key: string): Option<T> {
    if key in m then Some(m[key]) else None
  }

  class NudgeWatch {
    var state: map<string, AgentState>

    constructor ()
      ensures state == map[]
    {
      state := map[];
    }

    // One message of the scan: its sender's clock, and those it mentions.
    method Note(m: Msg, names: set<string>, spoke: map<string, Spoken>, mentioned: map<string, int>)
      returns (spoke': map<string, Spoken>, mentioned': map<string, int>)
      ensures forall a <- names :: Get(spoke', a) == Hear(Get(spoke, a), m, a)
      ensures forall a <- names :: Get(mentioned', a) == Notice(Get(mentioned, a), m, a)
    {
      spoke', mentioned' := spoke, mentioned;
      if m.ts.None? {
        return;
      }
      if m.sender in names && (m.sender !in spoke || m.ts.value > spoke[m.sender].ts) {
        spoke' := spoke[m.sender := Spoken(m.ts.value, m.terminal)];
      }
      var due := set a |
        a in m.mentions && a in names && a != m.sender && (a !in mentioned || m.ts.value > mentioned[a]);
      mentioned' := map a | a in mentioned.Keys + due :: if a in due then m.ts.value else mentioned[a];
    }

    // The two clocks of every agent, in one pass over the room.
    method ScanRoom(messages: seq<Msg>, names: set<string>)
      returns (spoke: map<string, Spoken>, mentioned: map<string, int>)
      ensures forall a <- names :: Get(spoke, a) == Spoke(messages, a)
      ensures forall a <- names :: Get(mentioned, a) == Mentioned(messages, a)
    {
      spoke, mentioned := map[], map[];
      for i := 0 to |messages|
        invariant forall a <- names :: Get(spoke, a) == Spoke(messages[..i], a)
        invariant forall a <- names :: Get(mentioned, a) == Mentioned(messages[..i], a)
      {
        forall a | a in names
          ensures Spoke(messages[..i + 1], a) == Hear(Spoke(messages[..i], a), messages[i], a)
          ensures Mentioned(messages[..i + 1], a) == Notice(Mentioned(messages[..i], a), messages[i], a)
        {
          ScanSnoc(messages, i, a);
        }
        hide Spoke, Mentioned, Get, Hear, Notice;
        spoke, mentioned := Note(messages[i], names, spoke, mentioned);
      }
      assert messages[..|messages|] == messages;
    }

    // The per-agent body of _patrol.
    method CheckAgent(agent: string, cfg: Settings, look: Look) returns (act: Act)
      modifies this
      ensures var c := Check(old(Get(state, agent)), cfg, look);
        && act == c.act
        && state == if c.state.Some? then old(state)[agent := c.state.value] else old(state) - {agent}
    {
      var sig := look.signals;
      if sig.spoke.None? && sig.mentioned.None? {
        assert agent !in state ==> state - {agent} == state;
        assert agent in state ==> state[agent := state[agent]] == state;
        return Skipped;
      }
      var newest := sig.spoke.Some? && (sig.mentioned.None? || sig.spoke.value.ts >= sig.mentioned.value);
      if newest && sig.spoke.value.terminal {
        state := state - {agent};
        return Untracked;
      }
      var seen := if sig.spoke.None? then sig.mentioned.value
                  else if sig.mentioned.None? then sig.spoke.value.ts
                  else Max(sig.spoke.value.ts, sig.mentioned.value);
      if look.now - seen <= look.threshold {
        act := Healthy(agent, seen);
        return;
      }
      if agent in state && state[agent].aliveAt.Some? {
        if look.now - state[agent].aliveAt.value < cfg.suppression {
          assert state[agent := state[agent]] == state;
          return Cooling;
        }
        state := state[agent := state[agent].(aliveAt := None)];
      }
      act := Stale(agent, cfg, look);
    }

    method Healthy(agent: string, seen: int) returns (act: Act)
      modifies this
      ensures var c := OnHealthy(old(Get(state, agent)), seen);
        && act == c.act
        && state == if c.state.Some? then old(state)[agent := c.state.value] else old(state) - {agent}
    {
      if agent in state && state[agent].nudgedAt.Some? {
        state := state[agent := AgentState(None, 0, false, Some(seen))];
        return Confirmed(seen);
      }
      if agent !in state || state[agent].aliveAt.None? {
        state := state - {agent};
      } else {
        assert state[agent := state[agent]] == state;
      }
      return Idle;
    }

    method Stale(agent: string, cfg: Settings, look: Look) returns (act: Act)
      modifies this
      ensures var c := OnStale(old(Get(state, agent)), cfg, look);
        && act == c.act
        && state == if c.state.Some? then old(state)[agent := c.state.value] else old(state) - {agent}
    {
      assert agent !in state ==> state - {agent} == state;
      assert agent in state ==> state[agent := state[agent]] == state;
      if agent !in state || state[agent].nudgedAt.None? {
        if look.send != Delivered {
          return NudgeLost;
        }
        var st := if agent in state then state[agent] else NEW_STATE;
        state := state[agent := st.(nudgedAt := Some(look.sentAt), nudgeCount := st.nudgeCount + 1)];
        return Nudged(look.sentAt);
      }
      var st := state[agent];
      if st.nudgeCount >= 1 && !st.escalated && look.now - st.nudgedAt.value >= cfg.grace {
        if look.send == Failed {
          return EscalationLost;
        }
        state := state[agent := st.(escalated := true)];
        return Escalated;
      }
      return Waiting;
    }

    // Every agent of one room but the watchdog itself. `answers` gives each
    // agent's threshold and the fate of a send to it.
    method PatrolRoom(agents: seq<string>, self: string, messages: seq<Msg>, cfg: Settings, answers: string -> Look)
      requires forall i, j :: 0 <= i < j < |agents| ==> agents[i] != agents[j]
      modifies this
      ensures forall a :: a in agents && a != self ==>
        Get(state, a) == Check(old(Get(state, a)), cfg, answers(a).(signals := Scan(messages, a))).state
      ensures forall a :: a !in agents || a == self ==> Get(state, a) == old(Get(state, a))
    {
      var spoke, mentioned := ScanRoom(messages, set a | a in agents);
      for i := 0 to |agents|
        invariant forall j :: 0 <= j < i && agents[j] != self ==>
          Get(state, agents[j]) ==
            Check(old(Get(state, agents[j])), cfg, answers(agents[j]).(signals := Scan(messages, agents[j]))).state
        invariant forall a :: a == self || a !in agents[..i] ==> Get(state, a) == old(Get(state, a))
      {
        var a := agents[i];
        hide Check, Spoke, Mentioned;
        assert agents[..i + 1] == agents[..i] + [a];
        assert a !in agents[..i];
        if a != self {
          var sig := Signals(Get(spoke, a), Get(mentioned, a));
          var act := CheckAgent(a, cfg, answers(a).(signals := sig));
        }
      }
      assert agents[..|agents|] == agents;
    }
  }

  // ── runs of one agent in one room ───────────────────────────────────────

  function After(cfg: Settings, looks: seq<Look>): Option<AgentState> {
    if looks == [] then None
    else Check(After(cfg, looks[..|looks| - 1]), cfg, looks[|looks| - 1]).state
  }

  function ActAt(cfg: Settings, looks: seq<Look>, i: nat): Act
    requires i < |looks|
  {
    Check(After(cfg, looks[..i]), cfg, looks[i]).act
  }

  predicate InTimeOrder(looks: seq<Look>) {
    forall i, j :: 0 <= i < j < |looks| ==> looks[i].now <= looks[j].now
  }

  // Since patrol i, the agent was untracked, or confirmed alive at a time that
  // by `now` lies a suppression period back.
  predicate Cleared(cfg: Settings, looks: seq<Look>, i: nat, now: int) {
    exists k :: i < k < |looks| && Clears(ActAt(cfg, looks, k), cfg, now)
  }

  predicate Clears(act: Act, cfg: Settings, now: int) {
    act == Untracked || (act.Confirmed? && now - act.at >= cfg.suppression)
  }

  // Why the agent cannot just be nudged again after the nudge at patrol i.
  predicate Held(cfg: Settings, looks: seq<Look>, i: nat, now: int) {
    var st := After(cfg, looks);
    || (st.Some? && st.value.nudgedAt.Some?)
    || (st.Some? && st.value.aliveAt.Some?
        && exists k :: i < k < |looks| && ActAt(cfg, looks, k) == Confirmed(st.value.aliveAt.value))
    || Cleared(cfg, looks, i, now)
  }

  lemma ActsOfPrefix(cfg: Settings, looks: seq<Look>, n: nat)
    requires n <= |looks|
    ensures forall k :: 0 <= k < n ==> ActAt(cfg, looks[..n], k) == ActAt(cfg, looks, k)
  {
    forall k | 0 <= k < n
      ensures ActAt(cfg, looks[..n], k) == ActAt(cfg, looks, k)
    {
      assert looks[..n][..k] == looks[..k];
    }
  }

  // One patrol on, an agent that was not nudged again is still held.
  lemma StaysHeld(cfg: Settings, looks: seq<Look>, i: nat)
    requires |looks| >= 2 && i < |looks| - 1 && InTimeOrder(looks)
    requires Held(cfg, looks[..|looks| - 1], i, looks[|looks| - 2].now)
    requires !ActAt(cfg, looks, |looks| - 1).Nudged?
    ensures Held(cfg, looks, i, looks[|looks| - 1].now)
  {
    var n := |looks| - 1;
    var front, look := looks[..n], looks[n];
    var st := After(cfg, front);
    ActsOfPrefix(cfg, looks, n);
    if Cleared(cfg, front, i, looks[n - 1].now) {
      var k :| i < k < |front| && Clears(ActAt(cfg, front, k), cfg, looks[n - 1].now);
      assert Clears(ActAt(cfg, looks, k), cfg, look.now);
    } else {
      assert ActAt(cfg, looks, n) == Check(st, cfg, look).act;
      CheckHolds(st.value, cfg, look);
      if st.value.nudgedAt.None? {
        var k :| i < k < |front| && ActAt(cfg, front, k) == Confirmed(st.value.aliveAt.value);
          assert ActAt(cfg, looks, k) == Confirmed(st.value.aliveAt.value);
      }
      hide After, Check;
    }
  }

  // What a patrol that does not nudge makes of an agent that is held.
  lemma CheckHolds(st: AgentState, cfg: Settings, look: Look)
    requires st.nudgedAt.Some? || st.aliveAt.Some?
    requires !Check(Some(st), cfg, look).act.Nudged?
    ensures var c := Check(Some(st), cfg, look);
      || c.act == Untracked
      || (c.act.Confirmed? && c.state.Some? && c.state.value.aliveAt == Some(c.act.at))
      || (c.state.Some? && c.state.value.nudgedAt.Some?)
      || (c.state.Some? && st.nudgedAt.None? && c.state.value.aliveAt == st.aliveAt)
      || (st.nudgedAt.None? && look.now - st.aliveAt.value >= cfg.suppression)
  {
  }

  lemma {:induction false} HeldAfterNudge(cfg: Settings, looks: seq<Look>, i: nat)
    requires i < |looks| && InTimeOrder(looks)
    requires ActAt(cfg, looks, i).Nudged?
    requires forall k :: i < k < |looks| ==> !ActAt(cfg, looks, k).Nudged?
    ensures Held(cfg, looks, i, looks[|looks| - 1].now)
    decreases |looks|
  {
    var n := |looks| - 1;
    if i == n {
      assert looks[..n] == looks[..|looks| - 1];
    } else {
      var front := looks[..n];
      ActsOfPrefix(cfg, looks, n);
      HeldAfterNudge(cfg, front, i);
      StaysHeld(cfg, looks, i);
    }
  }

  lemma NudgeNeeds(st: Option<AgentState>, cfg: Settings, look: Look)
    requires Check(st, cfg, look).act.Nudged? && st.Some?
    ensures st.value.nudgedAt.None?
    ensures st.value.aliveAt.Some? ==> look.now - st.value.aliveAt.value >= cfg.suppression
  {
  }

  // Between two successive nudges of an agent lies a patrol that untracked it,
  // or one that saw it alive at a time a suppression period before the second.
  lemma NudgesAreSpaced(cfg: Settings, looks: seq<Look>, i: nat, j: nat)
    requires i < j < |looks| && InTimeOrder(looks)
    requires ActAt(cfg, looks, i).Nudged? && ActAt(cfg, looks, j).Nudged?
    requires forall k :: i < k < j ==> !ActAt(cfg, looks, k).Nudged?
    ensures exists k :: i < k < j && Clears(ActAt(cfg, looks, k), cfg, looks[j].now)
  {
    var front := looks[..j];
    ActsOfPrefix(cfg, looks, j);
    HeldAfterNudge(cfg, front, i);
    var st := After(cfg, front);
    if st.Some? { NudgeNeeds(st, cfg, looks[j]); }
    hide After, Check;
    if Cleared(cfg, front, i, looks[j - 1].now) {
      var k :| i < k < |front| && Clears(ActAt(cfg, front, k), cfg, looks[j - 1].now);
      assert Clears(ActAt(cfg, looks, k), cfg, looks[j].now);
    } else if st.value.nudgedAt.None? {
      var k :| i < k < |front| && ActAt(cfg, front, k) == Confirmed(st.value.aliveAt.value);
      assert Clears(ActAt(cfg, looks, k), cfg, looks[j].now);
    }
  }

  // ── one marker for each nudge ───────────────────────────────────────────

  // Patrol i nudged at this time, and nothing since resolved the nudge.
  predicate Outstanding(cfg: Settings, looks: seq<Look>, i: nat, at: int) {
    && i < |looks| && ActAt(cfg, looks, i) == Nudged(at)
    && forall k :: i < k < |looks| ==> !Resolves(ActAt(cfg, looks, k))
  }

  predicate Resolves(act: Act) {
    act == Untracked || act.Confirmed?
  }

  lemma CheckNudgedAt(st: Option<AgentState>, cfg: Settings, look: Look)
    requires Check(st, cfg, look).state.Some? && Check(st, cfg, look).state.value.nudgedAt.Some?
    ensures var c := Check(st, cfg, look);
      || c.act == Nudged(c.state.value.nudgedAt.value)
      || (!Resolves(c.act) && st.Some? && st.value.nudgedAt == c.state.value.nudgedAt)
  {
  }

  // A nudge on record was sent by an earlier patrol, and the agent was neither
  // untracked nor confirmed since.
  lemma {:induction false} NudgeOutstanding(cfg: Settings, looks: seq<Look>)
    requires After(cfg, looks).Some? && After(cfg, looks).value.nudgedAt.Some?
    ensures exists i :: Outstanding(cfg, looks, i, After(cfg, looks).value.nudgedAt.value)
    decreases |looks|
  {
    var n := |looks| - 1;
    var front, at := looks[..n], After(cfg, looks).value.nudgedAt.value;
    assert ActAt(cfg, looks, n) == Check(After(cfg, front), cfg, looks[n]).act;
    CheckNudgedAt(After(cfg, front), cfg, looks[n]);
    if ActAt(cfg, looks, n) == Nudged(at) {
      assert Outstanding(cfg, looks, n, at);
    } else {
      NudgeOutstanding(cfg, front);
      var i :| Outstanding(cfg, front, i, at);
      ActsOfPrefix(cfg, looks, n);
      hide After, Check;
      assert Outstanding(cfg, looks, i, at);
    }
  }

  // What every reachable state keeps: only a nudged agent can be escalated, and
  // its cooldown is over.
  predicate StateOk(st: Option<AgentState>) {
    st.Some? ==>
      if st.value.nudgedAt.Some? then st.value.nudgeCount >= 1 && st.value.aliveAt.None? else !st.value.escalated
  }

  lemma {:induction false} AfterOk(cfg: Settings, looks: seq<Look>)
    ensures StateOk(After(cfg, looks))
    decreases |looks|
  {
    if looks != [] {
      AfterOk(cfg, looks[..|looks| - 1]);
      hide LastSeen, Closes;
    }
  }

  predicate EscalatedSince(cfg: Settings, looks: seq<Look>, i: nat) {
    exists k :: i < k < |looks| && ActAt(cfg, looks, k) == Escalated
  }

  // While a nudge is outstanding the state is that nudge's, escalated or not.
  lemma {:induction false} OutstandingState(cfg: Settings, looks: seq<Look>, i: nat, at: int)
    requires Outstanding(cfg, looks, i, at)
    ensures var st := After(cfg, looks);
      st.Some? && st.value.nudgedAt == Some(at) && (st.value.escalated <==> EscalatedSince(cfg, looks, i))
    decreases |looks|
  {
    var n := |looks| - 1;
    var front := looks[..n];
    var act := ActAt(cfg, looks, n);
    assert act == Check(After(cfg, front), cfg, looks[n]).act;
    AfterOk(cfg, front);
    if i < n {
      ActsOfPrefix(cfg, looks, n);
      OutstandingState(cfg, front, i, at);
      CheckOutstanding(After(cfg, front).value, cfg, looks[n]);
      EscalatedOneOn(cfg, looks, i);
      hide Check;
    }
  }

  lemma CheckOutstanding(st: AgentState, cfg: Settings, look: Look)
    requires st.nudgedAt.Some? && StateOk(Some(st)) && !Resolves(Check(Some(st), cfg, look).act)
    ensures var c := Check(Some(st), cfg, look);
      && !c.act.Nudged? && c.state.Some? && c.state.value.nudgedAt == st.nudgedAt
      && (c.state.value.escalated <==> st.escalated || c.act == Escalated)
  {
  }

  lemma EscalatedOneOn(cfg: Settings, looks: seq<Look>, i: nat)
    requires i < |looks| - 1
    ensures EscalatedSince(cfg, looks, i)
       <==> EscalatedSince(cfg, looks[..|looks| - 1], i) || ActAt(cfg, looks, |looks| - 1) == Escalated
  {
    var front := looks[..|looks| - 1];
    ActsOfPrefix(cfg, looks, |looks| - 1);
    hide ActAt;
    if EscalatedSince(cfg, front, i) {
      var k :| i < k < |front| && ActAt(cfg, front, k) == Escalated;
      assert ActAt(cfg, looks, k) == Escalated;
    }
  }

  predicate Stale(look: Look) {
    var seen := LastSeen(look.signals);
    seen.Some? && !Closes(look.signals) && look.now - seen.value > look.threshold
  }

  // A nudge a grace period old, neither resolved nor escalated since.
  predicate Overdue(cfg: Settings, looks: seq<Look>, i: nat, at: int, now: int) {
    Outstanding(cfg, looks, i, at) && now - at >= cfg.grace && !EscalatedSince(cfg, looks, i)
  }

  // An escalation is attempted exactly when the agent is stale and a nudge to it
  // is overdue; its marker burns unless the send failed in a way that may pass.
  lemma EscalatesIff(cfg: Settings, looks: seq<Look>, j: nat)
    requires j < |looks|
    ensures ActAt(cfg, looks, j) == Escalated || ActAt(cfg, looks, j) == EscalationLost
       <==> Stale(looks[j]) && exists i, at :: Overdue(cfg, looks[..j], i, at, looks[j].now)
    ensures ActAt(cfg, looks, j) == Escalated ==> looks[j].send in {Delivered, Undeliverable}
    ensures ActAt(cfg, looks, j) == EscalationLost ==> looks[j].send == Failed
  {
    var front, look := looks[..j], looks[j];
    var st := After(cfg, front);
    AfterOk(cfg, front);
    EscalationNeeds(st, cfg, look);
    hide Check, Stale;
    if st.Some? && st.value.nudgedAt.Some? {
      NudgeOutstanding(cfg, front);
      var i :| Outstanding(cfg, front, i, st.value.nudgedAt.value);
      OutstandingState(cfg, front, i, st.value.nudgedAt.value);
      if !st.value.escalated && look.now - st.value.nudgedAt.value >= cfg.grace {
        assert Overdue(cfg, front, i, st.value.nudgedAt.value, look.now);
      }
    }
    if i, at :| Overdue(cfg, front, i, at, look.now) {
      OutstandingState(cfg, front, i, at);
    }
  }

  // Each nudge burns at most one escalation marker: between two lies a nudge.
  lemma OneEscalationPerNudge(cfg: Settings, looks: seq<Look>, i: nat, j: nat)
    requires i < j < |looks| && ActAt(cfg, looks, i) == Escalated && ActAt(cfg, looks, j) == Escalated
    ensures exists k :: i < k < j && ActAt(cfg, looks, k).Nudged?
  {
    EscalatesIff(cfg, looks, j);
    var k, at :| Overdue(cfg, looks[..j], k, at, looks[j].now);
    ActsOfPrefix(cfg, looks, j);
    hide ActAt, Check;
    assert ActAt(cfg, looks[..j], i) == Escalated;
    assert ActAt(cfg, looks, k).Nudged?;
  }

  lemma EscalationNeeds(st: Option<AgentState>, cfg: Settings, look: Look)
    requires StateOk(st)
    ensures var act := Check(st, cfg, look).act;
      && (act == Escalated || act == EscalationLost <==>
            && Stale(look) && st.Some? && st.value.nudgedAt.Some?
            && !st.value.escalated && look.now - st.value.nudgedAt.value >= cfg.grace)
      && (act == Escalated ==> look.send in {Delivered, Undeliverable})
      && (act == EscalationLost ==> look.send == Failed)
  {
  }

  // ── when an agent is nudged ─────────────────────────────────────────────

  // Patrol k confirmed the agent alive as of this time, and nothing since
  // untracked it, nudged it or confirmed it anew.
  predicate LastConfirmed(cfg: Settings, looks: seq<Look>, k: nat, at: int) {
    && k < |looks| && ActAt(cfg, looks, k) == Confirmed(at)
    && forall i :: k < i < |looks| ==> !(Resolves(ActAt(cfg, looks, i)) || ActAt(cfg, looks, i).Nudged?)
  }

  lemma CheckAlive(st: Option<AgentState>, cfg: Settings, look: Look)
    requires Check(st, cfg, look).state.Some? && Check(st, cfg, look).state.value.aliveAt.Some? && StateOk(st)
    ensures var c := Check(st, cfg, look);
      || c.act == Confirmed(c.state.value.aliveAt.value)
      || (!Resolves(c.act) && !c.act.Nudged? && st.Some? && st.value.aliveAt == c.state.value.aliveAt)
  {
  }

  lemma {:induction false} AliveWasConfirmed(cfg: Settings, looks: seq<Look>)
    requires After(cfg, looks).Some? && After(cfg, looks).value.aliveAt.Some?
    ensures exists k :: LastConfirmed(cfg, looks, k, After(cfg, looks).value.aliveAt.value)
    decreases |looks|
  {
    var n := |looks| - 1;
    var front, at := looks[..n], After(cfg, looks).value.aliveAt.value;
    assert ActAt(cfg, looks, n) == Check(After(cfg, front), cfg, looks[n]).act;
    AfterOk(cfg, front);
    CheckAlive(After(cfg, front), cfg, looks[n]);
    if ActAt(cfg, looks, n) == Confirmed(at) {
      assert LastConfirmed(cfg, looks, n, at);
    } else {
      AliveWasConfirmed(cfg, front);
      var k :| LastConfirmed(cfg, front, k, at);
      ActsOfPrefix(cfg, looks, n);
      hide After, Check;
      assert LastConfirmed(cfg, looks, k, at);
    }
  }

  // The cooldown of a confirmation, or its having run out by `now`.
  predicate Cooled(st: Option<AgentState>, cfg: Settings, at: int, now: int) {
    || (st.Some? && st.value.nudgedAt.None? && st.value.aliveAt == Some(at))
    || ((st.None? || (st.value.nudgedAt.None? && st.value.aliveAt.None?)) && now - at >= cfg.suppression)
  }

  lemma CheckCooled(st: Option<AgentState>, cfg: Settings, at: int, now: int, look: Look)
    requires Cooled(st, cfg, at, now) && now <= look.now
    requires var act := Check(st, cfg, look).act; !(Resolves(act) || act.Nudged?)
    ensures Cooled(Check(st, cfg, look).state, cfg, at, look.now)
  {
  }

  lemma {:induction false} ConfirmedState(cfg: Settings, looks: seq<Look>, k: nat, at: int)
    requires InTimeOrder(looks) && LastConfirmed(cfg, looks, k, at)
    ensures Cooled(After(cfg, looks), cfg, at, looks[|looks| - 1].now)
    decreases |looks|
  {
    var n := |looks| - 1;
    var front := looks[..n];
    assert ActAt(cfg, looks, n) == Check(After(cfg, front), cfg, looks[n]).act;
    if k < n {
      ActsOfPrefix(cfg, looks, n);
      ConfirmedState(cfg, front, k, at);
      CheckCooled(After(cfg, front), cfg, at, looks[n - 1].now, looks[n]);
    }
    hide LastSeen, Closes;
  }

  // The agent answered a nudge, and the cooldown since is not over.
  ghost predicate Cools(cfg: Settings, looks: seq<Look>, now: int) {
    exists k, at :: LastConfirmed(cfg, looks, k, at) && now - at < cfg.suppression
  }

  ghost predicate NudgeStands(cfg: Settings, looks: seq<Look>) {
    exists i, at :: Outstanding(cfg, looks, i, at)
  }

  lemma AttemptNeeds(st: Option<AgentState>, cfg: Settings, look: Look)
    requires StateOk(st)
    ensures var act := Check(st, cfg, look).act;
      && (act.Nudged? || act == NudgeLost <==>
            && Stale(look) && (st.None? || st.value.nudgedAt.None?)
            && (st.Some? && st.value.aliveAt.Some? ==> look.now - st.value.aliveAt.value >= cfg.suppression))
      && (act.Nudged? ==> look.send == Delivered && act.at == look.sentAt)
      && (act == NudgeLost ==> look.send != Delivered)
  {
  }

  // A nudge is attempted exactly when the agent is stale, no nudge to it stands
  // unresolved, and no cooldown since its last answer is running; it goes on
  // record only when delivered.
  lemma NudgesIff(cfg: Settings, looks: seq<Look>, j: nat)
    requires j < |looks| && InTimeOrder(looks)
    ensures var act, front := ActAt(cfg, looks, j), looks[..j];
      && (act.Nudged? || act == NudgeLost <==>
            Stale(looks[j]) && !NudgeStands(cfg, front) && !Cools(cfg, front, looks[j].now))
      && (act.Nudged? ==> looks[j].send == Delivered && act.at == looks[j].sentAt)
      && (act == NudgeLost ==> looks[j].send != Delivered)
  {
    var front, look := looks[..j], looks[j];
    var st := After(cfg, front);
    AfterOk(cfg, front);
    AttemptNeeds(st, cfg, look);
    StandsIff(cfg, front);
    if st.Some? && st.value.aliveAt.Some? {
      AliveWasConfirmed(cfg, front);
    }
    hide Check, Stale, After, NudgeStands, LastConfirmed;
    if k, at :| LastConfirmed(cfg, front, k, at) && look.now - at < cfg.suppression {
      LastConfirmedNonEmpty(cfg, front, k, at);
      ConfirmedState(cfg, front, k, at);
    }
  }

  lemma LastConfirmedNonEmpty(cfg: Settings, looks: seq<Look>, k: nat, at: int)
    requires LastConfirmed(cfg, looks, k, at)
    ensures looks != []
  {
  }

  lemma StandsIff(cfg: Settings, looks: seq<Look>)
    ensures NudgeStands(cfg, looks) <==> After(cfg, looks).Some? && After(cfg, looks).value.nudgedAt.Some?
  {
    if After(cfg, looks).Some? && After(cfg, looks).value.nudgedAt.Some? {
      NudgeOutstanding(cfg, looks);
    }
    hide After, Outstanding;
    if i, at :| Outstanding(cfg, looks, i, at) {
      OutstandingState(cfg, looks, i, at);
    }
  }

  // ── recency through the page walk ───────────────────────────────────────

  predicate Signalled(m: Msg, agent: string) {
    m.ts.Some? && (m.sender == agent || agent in m.mentions)
  }

  // The scan yields the latest of an agent's signals, if there is one.
  lemma {:induction false} LastSeenIsLatest(ms: seq<Msg>, agent: string)
    ensures var seen := LastSeen(Scan(ms, agent));
      && (forall m :: m in ms && Signalled(m, agent) ==> seen.Some? && m.ts.value <= seen.value)
      && (seen.Some? ==> exists m :: m in ms && Signalled(m, agent) && m.ts == seen)
    decreases |ms|
  {
    if ms != [] {
      var front, last := ms[..|ms| - 1], ms[|ms| - 1];
      LastSeenIsLatest(front, agent);
      assert ms == front + [last];
      var before, seen := LastSeen(Scan(front, agent)), LastSeen(Scan(ms, agent));
      if seen != before {
        assert last in ms && Signalled(last, agent) && last.ts == seen;
      } else if seen.Some? {
        var m :| m in front && Signalled(m, agent) && m.ts == seen;
        assert m in ms;
      }
    }
  }

  lemma {:induction false} InWindowed(ms: seq<Msg>, since: int, m: Msg)
    ensures m in Window(ms, since) <==> m in ms && InWindow(m, since)
    decreases |ms|
  {
    if ms != [] {
      InWindowed(ms[..|ms| - 1], since, m);
      assert ms == ms[..|ms| - 1] + [ms[|ms| - 1]];
    }
  }

  predicate HeardIn(ms: seq<Msg>, agent: string, since: int) {
    exists m :: m in ms && Signalled(m, agent) && InWindow(m, since)
  }

  lemma HeardIff(ms: seq<Msg>, agent: string, since: int)
    ensures LastSeen(Scan(Window(ms, since), agent)).Some? <==> HeardIn(ms, agent, since)
  {
    LastSeenIsLatest(Window(ms, since), agent);
    hide LastSeen, Scan, Window;
    if LastSeen(Scan(Window(ms, since), agent)).Some? {
      var m :| m in Window(ms, since) && Signalled(m, agent);
      InWindowed(ms, since, m);
    }
    if HeardIn(ms, agent, since) {
      var m :| m in ms && Signalled(m, agent) && InWindow(m, since);
      InWindowed(ms, since, m);
    }
  }

  predicate NoLater(a: seq<Msg>, b: seq<Msg>) {
    forall m, n :: m in a && n in b && m.ts.Some? && n.ts.Some? ==> m.ts.value <= n.ts.value
  }

  // Older messages matter only to an agent the newer ones say nothing about.
  lemma LastSeenConcat(a: seq<Msg>, b: seq<Msg>, agent: string)
    requires NoLater(a, b)
    ensures LastSeen(Scan(a + b, agent)) ==
      if LastSeen(Scan(b, agent)).Some? then LastSeen(Scan(b, agent)) else LastSeen(Scan(a, agent))
  {
    LastSeenIsLatest(a, agent);
    LastSeenIsLatest(b, agent);
    LastSeenIsLatest(a + b, agent);
    hide LastSeen, Scan;
    assert forall m :: m in a + b <==> m in a || m in b;
  }

  // Five pages are enough for an agent's recency exactly when they carry a
  // signal of it, or nothing in the window before them does.
  lemma {:induction false} RecencySurvivesIff(probe: seq<Msg>, walk: seq<Msg>, since: int, agent: string)
    requires IsPrefix(probe, walk) && Ordered(walk)
    ensures var reach, start := Reach(probe, walk), Start(probe, walk, since);
      start <= |reach| &&
      (LastSeen(Scan(Window(Recent(probe, walk, Some(PageCount(probe)), since), since), agent))
         == LastSeen(Scan(Window(reach, since), agent))
       <==> HeardIn(reach[start..], agent, since) || !HeardIn(reach[..start], agent, since))
  {
    hide Start, Recent, Reach, Window, HeardIn, LastSeen, Scan, PageCount;
    var reach, start := Reach(probe, walk), Start(probe, walk, since);
    RecentIsSuffix(probe, walk, since);
    ReachCoversProbe(probe, walk);
    var a, b := reach[..start], reach[start..];
    assert reach == a + b;
    WindowConcat(a, b, since);
    WindowsInOrder(walk, |reach|, start, since);
    LastSeenConcat(Window(a, since), Window(b, since), agent);
    HeardIff(a, agent, since);
    HeardIff(b, agent, since);
  }

  lemma WindowsInOrder(walk: seq<Msg>, n: nat, start: nat, since: int)
    requires Ordered(walk) && start <= n <= |walk|
    ensures NoLater(Window(walk[..n][..start], since), Window(walk[..n][start..], since))
  {
    var a, b := walk[..n][..start], walk[..n][start..];
    forall m, k | m in Window(a, since) && k in Window(b, since) && m.ts.Some? && k.ts.Some?
      ensures m.ts.value <= k.ts.value
    {
      InWindowed(a, since, m);
      InWindowed(b, since, k);
      hide Window;
      var i :| 0 <= i < |a| && a[i] == m;
      var j :| 0 <= j < |b| && b[j] == k;
      assert walk[i] == m && walk[start + j] == k;
    }
  }

  // One word of the coder, then six hundred of the conductor.
  function NoisyRoom(): seq<Msg> {
    [Msg("coder", Some(0), {}, false)] + seq(600, i => Msg("conductor", Some(1), {}, false))
  }

  // The walk stops before the coder's word.
  lemma NoisyWalkStops()
    ensures Ordered(NoisyRoom()) && Reach(NoisyRoom(), NoisyRoom()) == NoisyRoom()
    ensures 0 < Start(NoisyRoom(), NoisyRoom(), 0) <= |NoisyRoom()|
  {
    var room := NoisyRoom();
    assert PageCount(room) == 7;
    assert Reach(room, room) == room;
    assert room[199].ts == Some(1);
    CutShortStopsInside(room, room, 0);
  }

  lemma NoisyPartsHeard(start: nat)
    requires 0 < start <= |NoisyRoom()|
    ensures !HeardIn(NoisyRoom()[start..], "coder", 0) && HeardIn(NoisyRoom(), "coder", 0)
  {
    var room := NoisyRoom();
    forall m | m in room[start..]
      ensures !Signalled(m, "coder")
    {
      var i :| 0 <= i < |room[start..]| && room[start..][i] == m;
      assert room[start + i] == m;
    }
    assert room[0] in room && Signalled(room[0], "coder");
  }

  lemma NoisyLastSeen()
    ensures LastSeen(Scan(Window(NoisyRoom(), 0), "coder")) == Some(0)
  {
    var room := NoisyRoom();
    NoisyPartsHeard(1);
    HeardIff(room, "coder", 0);
    LastSeenIsLatest(Window(room, 0), "coder");
    var seen := LastSeen(Scan(Window(room, 0), "coder"));
    var m :| m in Window(room, 0) && Signalled(m, "coder") && m.ts == seen;
    InWindowed(room, 0, m);
    var i :| 0 <= i < |room| && room[i] == m;
    assert i == 0;
  }

  // In that room a coder silent for a thousand seconds is passed over, while the
  // whole window would have had it nudged.
  lemma NoisyRoomHidesAgent(cfg: Settings)
    ensures var room := NoisyRoom();
      var got := Scan(Window(Recent(room, room, Some(PageCount(room)), 0), 0), "coder");
      var whole := Scan(Window(Reach(room, room), 0), "coder");
      && Ordered(room)
      && Check(None, cfg, Look(1000, got, 300, Delivered, 1000)).act == Skipped
      && Check(None, cfg, Look(1000, whole, 300, Delivered, 1000)).act == Nudged(1000)
  {
    hide NoisyRoom, Reach, Start, Window, Recent, Scan, PageCount, HeardIn, Ordered;
    var room := NoisyRoom();
    NoisyWalkStops();
    RecentSelf(room, 0);
    var start := Start(room, room, 0);
    NoisyPartsHeard(start);
    HeardIff(room[start..], "coder", 0);
    NoisyLastSeen();
    SilentAndClosing(room);
  }

  lemma RecentSelf(room: seq<Msg>, since: int)
    ensures Start(room, room, since) <= |Reach(room, room)|
    ensures Recent(room, room, Some(PageCount(room)), since) == Reach(room, room)[Start(room, room, since)..]
  {
    RecentIsSuffix(room, room, since);
  }

  // Nothing in the room closes the protocol.
  lemma SilentAndClosing(room: seq<Msg>)
    requires room == NoisyRoom()
    ensures !Closes(Scan(Window(room, 0), "coder"))
  {
    SpokeIsSaid(Window(room, 0), "coder");
    var spoke := Spoke(Window(room, 0), "coder");
    if spoke.Some? {
      var m :| m in Window(room, 0) && m.sender == "coder" && m.terminal == spoke.value.terminal;
      InWindowed(room, 0, m);
      var i :| 0 <= i < |room| && room[i] == m;
    }
  }

  lemma {:induction false} SpokeIsSaid(ms: seq<Msg>, agent: string)
    ensures Spoke(ms, agent).Some? ==>
      exists m :: m in ms && m.sender == agent && m.terminal == Spoke(ms, agent).value.terminal
    decreases |ms|
  {
    if ms != [] {
      var front, last := ms[..|ms| - 1], ms[|ms| - 1];
      SpokeIsSaid(front, agent);
      assert ms == front + [last] && last in ms;
      if Spoke(ms, agent).Some? && Spoke(ms, agent) == Spoke(front, agent) {
        var m :| m in front && m.sender == agent && m.terminal == Spoke(front, agent).value.terminal;
        assert m in ms;
      }
    }
  }
}
