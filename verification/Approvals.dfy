/**
 The approval command in its two forms: the sequence of events that other
 processes get between (module Interleaving), and the program's own pass over the
 store (module MergeCommand). Left alone, the first does what the second does.
 */
module Approvals {
  import opened Basics
  import opened Fsm
  import opened MergeLeg
  import opened Interleaving
  import C = MergeCommand

  // What the command reads and then matches against the live head: one ask for
  // each unfinished bound row that requested that head, and no other.
  lemma AsksAreRequested(db: Db, task: string, pr: int, head: Option<Sha>, key: Key)
    ensures key in db.subs && C.RequestedAt(key, db.subs[key], task, pr, head) <==>
      exists a <- Asks(db, task, pr) :: a.key == key && Some(a.sha) == head
    ensures forall a <- Asks(db, task, pr) ::
      a.key in db.subs && Some(a.sha) == db.subs[a.key].requested && a.approved == db.subs[a.key].approved
  {
    if key in db.subs && C.RequestedAt(key, db.subs[key], task, pr, head) {
      assert Ask(key, db.subs[key].requested.value, db.subs[key].approved) in Asks(db, task, pr);
    }
  }

  // The asks still to be granted once the head was looked up.
  function Matching(db: Db, task: string, pr: int, head: Option<Sha>): set<Ask> {
    set a | a in Asks(db, task, pr) && Some(a.sha) == head
  }

  predicate AlreadyGranted(db: Db, after: Db, task: string, pr: int, head: Option<Sha>, todo: set<Ask>) {
    && after.tasks == db.tasks && after.log == db.log && after.subs.Keys == db.subs.Keys
    && forall k :: k in db.subs ==>
         after.subs[k] == if exists a <- todo :: a.key == k then db.subs[k]
                          else C.GrantedRow(k, db.subs[k], task, pr, head)
  }

  lemma GrantsOneMore(db: Db, w: World, pid: nat, ask: Ask, task: string, pr: int, head: Option<Sha>)
    requires pid in w.approvals && w.approvals[pid].Granting? && ask in w.approvals[pid].todo
    requires w.approvals[pid].todo <= Matching(db, task, pr, head)
    requires AlreadyGranted(db, w.db, task, pr, head, w.approvals[pid].todo)
    ensures AlreadyGranted(db, Apply(w, ApproveOne(pid, ask)).db, task, pr, head, w.approvals[pid].todo - {ask})
  {
    var todo, after := w.approvals[pid].todo, Apply(w, ApproveOne(pid, ask)).db;
    OneAskEach(db, task, pr, head, ask);
    AskIsGranted(w, pid, ask);
    hide Apply, Enabled, C.RequestedAt, Asks;
    forall k | k in db.subs
      ensures after.subs[k] == if exists a <- todo - {ask} :: a.key == k then db.subs[k]
                               else C.GrantedRow(k, db.subs[k], task, pr, head)
    {
      if k != ask.key {
        assert (exists a <- todo - {ask} :: a.key == k) <==> (exists a <- todo :: a.key == k);
      } else {
        assert ask in todo;
      }
    }
  }

  // What one grant of the command writes.
  lemma AskIsGranted(w: World, pid: nat, ask: Ask)
    requires pid in w.approvals && w.approvals[pid].Granting? && ask in w.approvals[pid].todo && ask.key in w.db.subs
    ensures var after, row := Apply(w, ApproveOne(pid, ask)).db, w.db.subs[ask.key];
      && after.tasks == w.db.tasks && after.log == w.db.log
      && after.subs == w.db.subs[
           ask.key := if ask.approved == Some(ask.sha) then row else row.(approved := Some(ask.sha))]
  {
    assert w.db.subs[ask.key := w.db.subs[ask.key]] == w.db.subs;
  }

  // A row is asked for once.
  lemma OneAskEach(db: Db, task: string, pr: int, head: Option<Sha>, ask: Ask)
    requires ask in Matching(db, task, pr, head)
    ensures forall a <- Matching(db, task, pr, head) :: a.key == ask.key ==> a == ask
    ensures ask.key in db.subs && C.RequestedAt(ask.key, db.subs[ask.key], task, pr, head)
    ensures ask.approved == db.subs[ask.key].approved && Some(ask.sha) == db.subs[ask.key].requested
  {
  }

  // The grants of an approval left alone, in any order.
  predicate InOrder(es: seq<Event>, pid: nat, todo: set<Ask>)
    decreases |es|
  {
    if es == [] then todo == {}
    else es[0].ApproveOne? && es[0].pid == pid && es[0].ask in todo && InOrder(es[1..], pid, todo - {es[0].ask})
  }

  function ApplyAll(w: World, es: seq<Event>, pid: nat): World
    requires pid in w.approvals && w.approvals[pid].Granting? && InOrder(es, pid, w.approvals[pid].todo)
    decreases |es|
  {
    if es == [] then w else ApplyAll(Apply(w, es[0]), es[1..], pid)
  }

  // They end in exactly the rows the program's own pass leaves.
  lemma {:induction false} UndisturbedApproval(
      db: Db, w: World, es: seq<Event>, pid: nat, task: string, pr: int, head: Option<Sha>)
    requires pid in w.approvals && w.approvals[pid].Granting? && InOrder(es, pid, w.approvals[pid].todo)
    requires w.approvals[pid].todo <= Matching(db, task, pr, head)
    requires AlreadyGranted(db, w.db, task, pr, head, w.approvals[pid].todo)
    ensures var after := ApplyAll(w, es, pid).db;
      && after.tasks == db.tasks && after.log == db.log && after.subs.Keys == db.subs.Keys
      && forall k :: k in db.subs ==> after.subs[k] == C.GrantedRow(k, db.subs[k], task, pr, head)
    decreases |es|
  {
    if es != [] {
      GrantsOneMore(db, w, pid, es[0].ask, task, pr, head);
      UndisturbedApproval(db, Apply(w, es[0]), es[1..], pid, task, pr, head);
    }
  }

  // From the moment the command has matched its requests against the head.
  lemma ApprovalGrantsRequested(w: World, es: seq<Event>, pid: nat, task: string, pr: int, head: Option<Sha>)
    requires pid in w.approvals
    requires w.approvals[pid] == Granting(Matching(w.db, task, pr, head)) && InOrder(es, pid, w.approvals[pid].todo)
    ensures forall k :: k in w.db.subs ==>
      k in ApplyAll(w, es, pid).db.subs
      && ApplyAll(w, es, pid).db.subs[k] == C.GrantedRow(k, w.db.subs[k], task, pr, head)
  {
    forall k | k in w.db.subs
      ensures w.db.subs[k] == if exists a <- w.approvals[pid].todo :: a.key == k then w.db.subs[k]
                              else C.GrantedRow(k, w.db.subs[k], task, pr, head)
    {
      AsksAreRequested(w.db, task, pr, head, k);
    }
    UndisturbedApproval(w.db, w, es, pid, task, pr, head);
  }
}
