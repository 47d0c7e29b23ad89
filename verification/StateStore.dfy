/**
 The durable store as the object the program updates in place. Every method is
 one committed statement or transaction of state/store.py or state/fsm.py, and
 is proved against the value-level functions of module Fsm.
 */
module StateStore {
  import opened Basics
  import opened Fsm
  import opened Gate

  class Store {
    var tasks: map<string, TaskRow>
    var subs: map<Key, SubtaskRow>
    var log: seq<LogRow>
    var audit: seq<AuditRow>

    constructor (tasks: map<string, TaskRow>)
      ensures Snapshot() == Db(tasks, map[], [], [])
    {
      this.tasks := tasks;
      subs, log, audit := map[], [], [];
    }

    function Snapshot(): Db
      reads this
    {
      Db(tasks, subs, log, audit)
    }

    method EnsureSubtask(key: Key)
      requires key.task in tasks
      modifies this`subs
      ensures Snapshot() == Ensure(old(Snapshot()), key)
    {
      if key !in subs {
        subs := subs[key := FRESH_ROW];
      }
    }

    // SELECT head_sha ... WHERE key AND to_state = pass_state
    method QueryShas(key: Key, to: State) returns (shas: seq<Option<Sha>>)
      ensures forall head :: head in shas <==> HasRow(log, key, to, head)
      ensures shas != [] <==> HasRowInto(log, key, to)
    {
      shas := [];
      for i := 0 to |log|
        invariant forall head :: head in shas <==> HasRow(log[..i], key, to, head)
        invariant shas != [] <==> HasRowInto(log[..i], key, to)
      {
        assert log[..i + 1] == log[..i] + [log[i]];
        var before := shas;
        if log[i].key == key && log[i].to == to {
          shas := shas + [log[i].sha];
        }
        forall head
          ensures head in shas <==> HasRow(log[..i + 1], key, to, head)
        {
          RowSnoc(log[..i], log[i], key, to, head);
        }
        RowIntoSnoc(log[..i], log[i], key, to);
      }
      assert log[..|log|] == log;
    }

    // The gate, evaluated on the caller's open connection: loops over the
    // required legs and builds one machine-readable reason per failing leg.
    method EvaluateMergeEligibility(key: Key, head: Option<Sha>) returns (e: Eligibility)
      ensures e == Evaluate(Snapshot(), key, head)
      ensures e.eligible <==> GatePasses(Snapshot(), key, head)
    {
      EligibleIffGatePasses(Snapshot(), key, head);
      if key.task !in tasks {
        return Eligibility(false, [UnknownTask]);
      }
      var required := match tasks[key.task].required case None => DEFAULT_REQUIRED case Some(legs) => legs;
      if required == [] {
        return Eligibility(true, [UngatedMerge]);
      }
      if head.None? || head.value == "" {
        return Eligibility(false, [NoHeadSha]);
      }
      var reasons: seq<Reason> := [];
      for i := 0 to |required|
        invariant reasons == LegReasons(log, key, head, required[..i])
      {
        assert required[..i + 1][..i] == required[..i];
        var leg := required[i];
        var pass := PassState(leg);
        if pass.None? {
          reasons := reasons + [UnknownVerdict(leg)];
        } else {
          var shas := QueryShas(key, pass.value);
          if head !in shas {
            var pinned := PinnedOf(shas);
            PinnedRowIff(log, key, pass.value, shas);
            if pinned != {} {
              reasons := reasons + [StaleVerdict(leg)];
            } else if shas != [] {
              reasons := reasons + [UnpinnedVerdict(leg)];
            } else {
              reasons := reasons + [MissingVerdict(leg)];
            }
          }
        }
      }
      assert required[..|required|] == required;
      return Eligibility(reasons == [], reasons);
    }

    // The checks inside the exclusive transaction; nothing is written.
    method CheckTransition(c: Call) returns (outcome: Outcome)
      requires c.key in subs
      ensures outcome == Decide(Snapshot(), c)
    {
      var row := subs[c.key];
      if !IsAllowed(row.state, c.role, c.next) {
        if c.sha.Some? && !ReworkState(row.state) {
          var shas := QueryShas(c.key, c.next);
          if c.sha in shas {
            return NoOp;
          }
        }
        return Illegal;
      }
      if row.state == ReviewFailed && c.role == Coder && c.next == InProgress
         && row.reviewRound >= c.caps.review {
        return ReviewCapReached;
      }
      if c.next == NeedsRebase && row.rebaseRounds >= c.caps.rebase {
        return RebaseCapReached;
      }
      if c.next == MergePending {
        var e := EvaluateMergeEligibility(c.key, c.sha);
        if !e.eligible {
          return NotEligible(e.reasons);
        }
      }
      return Applied;
    }

    // The write half: row and counters, one log row, task completion.
    method WriteTransition(c: Call)
      requires c.key in subs
      modifies this
      ensures Snapshot() == Write(old(Snapshot()), c)
    {
      var row := subs[c.key];
      if c.next == ReviewFailed {
        subs := subs[c.key := row.(state := c.next, reviewRound := row.reviewRound + 1)];
      } else if c.next == NeedsRebase {
        subs := subs[c.key := row.(state := c.next, rebaseRounds := row.rebaseRounds + 1)];
      } else {
        subs := subs[c.key := row.(state := c.next)];
      }
      log := log + [LogRow(c.key, row.state, c.next, c.role, c.sha)];
      if c.next == Merged {
        if AllMerged(subs, c.key.task) && c.key.task in tasks && tasks[c.key.task].status == Active {
          tasks := tasks[c.key.task := tasks[c.key.task].(status := Completed)];
        }
      }
    }

    // fsm.transition: ensure the row, then check and write under one lock.
    method Transition(c: Call) returns (outcome: Outcome)
      modifies this
      ensures Fsm.Transition(old(Snapshot()), c) == Result(outcome, Snapshot())
    {
      if c.key.task !in tasks {
        return NoTaskRow;
      }
      EnsureSubtask(c.key);
      outcome := CheckTransition(c);
      if outcome == Applied {
        WriteTransition(c);
      }
    }

    method GetSubtask(key: Key) returns (row: Option<SubtaskRow>)
      ensures row == if key in subs then Some(subs[key]) else None
    {
      row := if key in subs then Some(subs[key]) else None;
    }

    // The newest row into merge_pending, searched from the tail of the log.
    method MergePendingSha(key: Key) returns (sha: Option<Sha>)
      ensures sha == PendingSha(log, key)
      ensures sha.Some? ==> HasRow(log, key, MergePending, sha)
    {
      PendingShaIsRow(log, key);
      assert log[..|log|] == log;
      var i := |log|;
      while i > 0
        invariant 0 <= i <= |log|
        invariant PendingSha(log[..i], key) == PendingSha(log, key)
      {
        i := i - 1;
        assert log[..i + 1][..i] == log[..i];
        if log[i].key == key && log[i].to == MergePending {
          return log[i].sha;
        }
      }
      return None;
    }

    method SetPrNumber(key: Key, pr: int)
      modifies this`subs, this`audit
      ensures Snapshot() == SetPr(old(Snapshot()), key, pr)
    {
      if key in subs {
        subs := subs[key := subs[key].(pr := Some(pr))];
      }
      audit := audit + [PrBinding(key, pr)];
    }

    method IncrementVerifyAttempts(key: Key)
      modifies this`subs
      ensures Snapshot() == BumpAttempts(old(Snapshot()), key)
    {
      if key in subs {
        subs := subs[key := subs[key].(verifyAttempts := subs[key].verifyAttempts + 1)];
      }
    }

    method MarkMergeApprovalRequested(key: Key, sha: Option<Sha>)
      modifies this`subs, this`audit
      ensures Snapshot() == MarkRequested(old(Snapshot()), key, sha)
    {
      if key in subs {
        subs := subs[key := subs[key].(requested := sha)];
      }
      audit := audit + [ApprovalRequest(key, sha)];
    }

    method RecordMergeApproval(key: Key, sha: Sha)
      modifies this`subs, this`audit
      ensures Snapshot() == RecordGrant(old(Snapshot()), key, sha)
    {
      if key in subs {
        subs := subs[key := subs[key].(approved := Some(sha))];
      }
      audit := audit + [ApprovalGrant(key, sha)];
    }

    method AppendAuditEvent(row: AuditRow)
      modifies this`audit
      ensures Snapshot() == AppendAudit(old(Snapshot()), row)
    {
      audit := audit + [row];
    }
  }

  // The queue SHA read back is always that of a recorded merge_pending row.
  lemma {:induction false} PendingShaIsRow(log: seq<LogRow>, key: Key)
    ensures PendingSha(log, key).Some? ==> HasRow(log, key, MergePending, PendingSha(log, key))
  {
    if log != [] {
      var front, last := log[..|log| - 1], log[|log| - 1];
      assert log == front + [last];
      PendingShaIsRow(front, key);
      RowSnoc(front, last, key, MergePending, PendingSha(log, key));
    }
  }
}
