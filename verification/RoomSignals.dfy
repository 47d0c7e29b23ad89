/**
 The two clocks of an agent (module NudgePatrol) told from the messages of the
 room, and what makes a patrol leave the agent alone for good or for now.
 */
module RoomSignals {
  import opened Basics
  import opened PageWalk
  import opened NudgePatrol

  predicate Says(m: Msg, agent: string) {
    m.ts.Some? && m.sender == agent
  }

  // Somebody else mentions the agent.
  predicate Calls(m: Msg, agent: string) {
    m.ts.Some? && m.sender != agent && agent in m.mentions
  }

  // Message i is the first of the agent's newest.
  predicate NewestOwn(ms: seq<Msg>, agent: string, i: nat) {
    && i < |ms| && Says(ms[i], agent)
    && (forall j :: 0 <= j < |ms| && Says(ms[j], agent) ==> ms[j].ts.value <= ms[i].ts.value)
    && (forall j :: 0 <= j < i && Says(ms[j], agent) ==> ms[j].ts.value < ms[i].ts.value)
  }

  lemma {:induction false} SpokeIsNewestOwn(ms: seq<Msg>, agent: string)
    ensures Spoke(ms, agent).None? <==> forall i :: 0 <= i < |ms| ==> !Says(ms[i], agent)
    ensures Spoke(ms, agent).Some? ==>
      exists i: nat :: NewestOwn(ms, agent, i) && Spoke(ms, agent).value == Spoken(ms[i].ts.value, ms[i].terminal)
    decreases |ms|
  {
    if ms != [] {
      var n := |ms| - 1;
      var front := ms[..n];
      SpokeIsNewestOwn(front, agent);
      assert forall i :: 0 <= i < n ==> front[i] == ms[i];
      if Spoke(ms, agent) != Spoke(front, agent) {
        assert NewestOwn(ms, agent, n);
      } else if Spoke(front, agent).Some? {
        var i: nat :| NewestOwn(front, agent, i)
          && Spoke(front, agent).value == Spoken(front[i].ts.value, front[i].terminal);
        assert NewestOwn(ms, agent, i);
      }
    }
  }

  lemma OneNewestOwn(ms: seq<Msg>, agent: string, i: nat, j: nat)
    requires NewestOwn(ms, agent, i) && NewestOwn(ms, agent, j)
    ensures i == j
  {
  }

  lemma {:induction false} MentionedIsNewestCall(ms: seq<Msg>, agent: string)
    ensures var called := Mentioned(ms, agent);
      && (forall m <- ms :: Calls(m, agent) ==> called.Some? && m.ts.value <= called.value)
      && (called.Some? ==> exists m <- ms :: Calls(m, agent) && m.ts == called)
    decreases |ms|
  {
    if ms != [] {
      var front, last := ms[..|ms| - 1], ms[|ms| - 1];
      MentionedIsNewestCall(front, agent);
      assert ms == front + [last] && last in ms;
      if Mentioned(ms, agent) == Mentioned(front, agent) && Mentioned(front, agent).Some? {
        var m :| m in front && Calls(m, agent) && m.ts == Mentioned(front, agent);
        assert m in ms;
      }
    }
  }

  // A patrol stops tracking an agent exactly when its newest word closes the
  // protocol and nobody called it later; it skips the agent exactly when the room
  // neither holds a word of it nor a call to it.
  lemma LeftAloneIff(st: Option<AgentState>, cfg: Settings, look: Look, ms: seq<Msg>, agent: string)
    requires look.signals == Scan(ms, agent)
    ensures Check(st, cfg, look).act == Untracked <==>
      exists i: nat :: NewestOwn(ms, agent, i) && ms[i].terminal
                  && forall m <- ms :: Calls(m, agent) ==> m.ts.value <= ms[i].ts.value
    ensures Check(st, cfg, look).act == Skipped <==> forall m <- ms :: !Says(m, agent) && !Calls(m, agent)
  {
    SpokeIsNewestOwn(ms, agent);
    MentionedIsNewestCall(ms, agent);
    ActIsUntracked(st, cfg, look);
    hide Check, Spoke, Mentioned, Calls;
    if Spoke(ms, agent).Some? {
      var i: nat :| NewestOwn(ms, agent, i) && Spoke(ms, agent).value == Spoken(ms[i].ts.value, ms[i].terminal);
      assert ms[i] in ms;
      forall j: nat | NewestOwn(ms, agent, j)
        ensures i == j
      {
        OneNewestOwn(ms, agent, i, j);
      }
    }
  }

  lemma ActIsUntracked(st: Option<AgentState>, cfg: Settings, look: Look)
    ensures var act, sig := Check(st, cfg, look).act, look.signals;
      && (act == Skipped <==> sig.spoke.None? && sig.mentioned.None?)
      && (act == Untracked <==>
            sig.spoke.Some? && sig.spoke.value.terminal
            && (sig.mentioned.Some? ==> sig.mentioned.value <= sig.spoke.value.ts))
  {
  }
}
