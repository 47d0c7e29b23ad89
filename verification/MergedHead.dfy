/**
 Which commit the merge leg records after a failed merge command: what the
 invocation saw at its first look, what it sees at its second, and who can have
 moved the pull request's head between the two. Over every interleaving.
 */
module MergedHead {
  import opened Basics
  import opened Fsm
  import opened MergeLeg
  import opened Interleaving

  function HeadOf(w: World, pr: int): Option<Sha> {
    if pr in w.prs then Head(w.prs[pr]) else None
  }

  predicate Acts(ws: seq<World>, es: seq<Event>, k: nat, pid: nat) {
    k < |es| < |ws| && es[k].LegAct? && es[k].pid == pid && pid in ws[k].legs
  }

  // Event k is invocation pid's first look at the PR.
  predicate Looks(ws: seq<World>, es: seq<Event>, k: nat, pid: nat, pr: int) {
    Acts(ws, es, k, pid) && ws[k].legs[pid].leg.Look? && ws[k].legs[pid].leg.pr == pr
  }

  // Event k is its second look, after the merge command failed.
  predicate LooksAgain(ws: seq<World>, es: seq<Event>, k: nat, pid: nat, pr: int) {
    Acts(ws, es, k, pid) && ws[k].legs[pid].leg.Resnap? && ws[k].legs[pid].leg.pr == pr
  }

  // No process start or crash under this id between event k and world n.
  predicate OneInvocation(es: seq<Event>, pid: nat, k: nat, n: nat) {
    forall i :: k < i < n && i < |es| ==> !((es[i].LegStart? || es[i].LegCrash?) && es[i].pid == pid)
  }

  // ── an invocation goes forward only ─────────────────────────────────────

  lemma LegStays(w: World, e: Event, pid: nat)
    requires Enabled(w, e) && pid in w.legs
    requires !((e.LegStart? || e.LegCrash? || e.LegAct?) && e.pid == pid)
    ensures pid in Apply(w, e).legs && Apply(w, e).legs[pid] == w.legs[pid]
  {
    hide LegStep, Transition, Truthful, Asks;
  }

  lemma LegActs(w: World, e: Event)
    requires Enabled(w, e) && e.LegAct?
    ensures var p, after := w.legs[e.pid], Apply(w, e);
      && e.pid in after.legs && after.legs[e.pid].args == p.args
      && Fits(p.leg, e.obs) && after.legs[e.pid].leg == LegStep(w.db, p.args, p.leg, e.obs).leg
      && Ahead(after.legs[e.pid].leg) <= Ahead(p.leg)
      && (!p.leg.Done? ==> Ahead(after.legs[e.pid].leg) < Ahead(p.leg))
  {
    var p := w.legs[e.pid];
    if !p.leg.Done? { StepGoesAhead(w.db, p.args, p.leg, e.obs); }
    hide Transition;
  }

  lemma {:induction false} GoesOn(ws: seq<World>, es: seq<Event>, k: nat, n: nat, pid: nat)
    requires IsRun(ws, es) && Acts(ws, es, k, pid) && !ws[k].legs[pid].leg.Done?
    requires k < n <= |es| && OneInvocation(es, pid, k, n)
    ensures pid in ws[n].legs && Ahead(ws[n].legs[pid].leg) < Ahead(ws[k].legs[pid].leg)
    decreases n
  {
    hide Apply, Enabled, Ahead;
    var e := es[n - 1];
    if n - 1 == k {
      LegActs(ws[k], e);
    } else {
      GoesOn(ws, es, k, n - 1, pid);
      if e.LegAct? && e.pid == pid {
        LegActs(ws[n - 1], e);
      } else {
        LegStays(ws[n - 1], e, pid);
      }
    }
  }

  // An invocation looks first, and looks again, at most once each.
  lemma LooksOnce(ws: seq<World>, es: seq<Event>, k: nat, l: nat, n: nat, pid: nat, pr: int, pr': int)
    requires IsRun(ws, es) && k <= l < n <= |es| && OneInvocation(es, pid, k, n)
    requires (Looks(ws, es, k, pid, pr) && Looks(ws, es, l, pid, pr'))
          || (LooksAgain(ws, es, k, pid, pr) && LooksAgain(ws, es, l, pid, pr'))
    ensures k == l && pr == pr'
  {
    if k < l {
      GoesOn(ws, es, k, l, pid);
    }
  }

  // ── what an invocation remembers ────────────────────────────────────────

  predicate Saw(ws: seq<World>, es: seq<Event>, n: nat, pid: nat, pr: int, head: Option<Sha>, l: nat) {
    l < n && Looks(ws, es, l, pid, pr) && OneInvocation(es, pid, l, n) && HeadOf(ws[l], pr) == head
  }

  predicate SawAgain(ws: seq<World>, es: seq<Event>, n: nat, pid: nat, pr: int, head: Option<Sha>, r: nat) {
    r < n && LooksAgain(ws, es, r, pid, pr) && OneInvocation(es, pid, r, n) && HeadOf(ws[r], pr) == head
  }

  ghost predicate FirstSaw(ws: seq<World>, es: seq<Event>, n: nat, pid: nat, pr: int, head: Option<Sha>) {
    exists l: nat :: Saw(ws, es, n, pid, pr, head, l)
  }

  ghost predicate ThenSaw(ws: seq<World>, es: seq<Event>, n: nat, pid: nat, pr: int, head: Option<Sha>) {
    exists r: nat :: SawAgain(ws, es, n, pid, pr, head, r)
  }

  // The head a leg carries is the PR's head at its first look; the commit it
  // records after a failure is the PR's head at its second.
  ghost predicate Remembers(ws: seq<World>, es: seq<Event>, n: nat, pid: nat, leg: Leg) {
    match leg
    case Enqueue(pr, snap) => FirstSaw(ws, es, n, pid, pr, Head(snap))
    case ReadQueue(pr, snap) => FirstSaw(ws, es, n, pid, pr, Head(snap))
    case ReadGrant(pr, snap, _) => FirstSaw(ws, es, n, pid, pr, Head(snap))
    case Send(pr, snap, _) => FirstSaw(ws, es, n, pid, pr, Head(snap))
    case Execute(pr, snap, _) => FirstSaw(ws, es, n, pid, pr, Head(snap))
    case Resnap(pr, pinned, _) => FirstSaw(ws, es, n, pid, pr, Some(pinned))
    case Record(sha, granted, exit) =>
      exit == MergedAfterFailure ==>
        exists pr :: FirstSaw(ws, es, n, pid, pr, Some(granted)) && ThenSaw(ws, es, n, pid, pr, sha)
    case _ => true
  }

  lemma OneOn(es: seq<Event>, pid: nat, k: nat, n: nat)
    requires n < |es| && OneInvocation(es, pid, k, n) && !((es[n].LegStart? || es[n].LegCrash?) && es[n].pid == pid)
    ensures OneInvocation(es, pid, k, n + 1)
  {
  }

  lemma SeenOneOn(ws: seq<World>, es: seq<Event>, n: nat, pid: nat, pr: int, head: Option<Sha>)
    requires n < |es| && !((es[n].LegStart? || es[n].LegCrash?) && es[n].pid == pid)
    ensures FirstSaw(ws, es, n, pid, pr, head) ==> FirstSaw(ws, es, n + 1, pid, pr, head)
    ensures ThenSaw(ws, es, n, pid, pr, head) ==> ThenSaw(ws, es, n + 1, pid, pr, head)
  {
    hide Looks, LooksAgain, HeadOf, OneInvocation;
    if l: nat :| Saw(ws, es, n, pid, pr, head, l) {
      OneOn(es, pid, l, n);
      assert Saw(ws, es, n + 1, pid, pr, head, l);
    }
    if r: nat :| SawAgain(ws, es, n, pid, pr, head, r) {
      OneOn(es, pid, r, n);
      assert SawAgain(ws, es, n + 1, pid, pr, head, r);
    }
  }

  // While others act, nothing an invocation remembers is lost.
  lemma RemembersOneOn(ws: seq<World>, es: seq<Event>, n: nat, pid: nat, leg: Leg)
    requires n < |es| && !((es[n].LegStart? || es[n].LegCrash?) && es[n].pid == pid)
    requires Remembers(ws, es, n, pid, leg)
    ensures Remembers(ws, es, n + 1, pid, leg)
  {
    hide FirstSaw, ThenSaw;
    match leg
    case Enqueue(pr, snap) => SeenOneOn(ws, es, n, pid, pr, Head(snap));
    case ReadQueue(pr, snap) => SeenOneOn(ws, es, n, pid, pr, Head(snap));
    case ReadGrant(pr, snap, _) => SeenOneOn(ws, es, n, pid, pr, Head(snap));
    case Send(pr, snap, _) => SeenOneOn(ws, es, n, pid, pr, Head(snap));
    case Execute(pr, snap, _) => SeenOneOn(ws, es, n, pid, pr, Head(snap));
    case Resnap(pr, pinned, _) => SeenOneOn(ws, es, n, pid, pr, Some(pinned));
    case Record(sha, granted, exit) =>
      if exit == MergedAfterFailure {
        var pr :| FirstSaw(ws, es, n, pid, pr, Some(granted)) && ThenSaw(ws, es, n, pid, pr, sha);
        SeenOneOn(ws, es, n, pid, pr, Some(granted));
        SeenOneOn(ws, es, n, pid, pr, sha);
      }
    case _ =>
  }

  // An answer to a look is the PR as it stands in that world.
  lemma AnswerIsHead(w: World, e: Event)
    requires Enabled(w, e) && e.LegAct? && (w.legs[e.pid].leg.Look? || w.legs[e.pid].leg.Resnap?)
    ensures e.obs.Saw? && (e.obs.snap.Some? ==> Head(e.obs.snap.value) == HeadOf(w, w.legs[e.pid].leg.pr))
  {
  }

  // One action of the invocation itself.
  lemma ActRemembers(ws: seq<World>, es: seq<Event>, n: nat, pid: nat)
    requires IsRun(ws, es) && n < |es| && Acts(ws, es, n, pid)
    requires Remembers(ws, es, n, pid, ws[n].legs[pid].leg)
    ensures pid in ws[n + 1].legs && Remembers(ws, es, n + 1, pid, ws[n + 1].legs[pid].leg)
  {
    hide Apply, Enabled, FirstSaw, ThenSaw, Inv, LegPinned, Transition, PendingSha, HeadOf;
    var w, e, leg := ws[n], es[n], ws[n].legs[pid].leg;
    LegActs(w, e);
    RemembersOneOn(ws, es, n, pid, leg);
    if leg.Look? {
      AnswerIsHead(w, e);
      FirstLook(ws, es, n, pid);
    } else if leg.Resnap? {
      AnswerIsHead(w, e);
      SecondLook(ws, es, n, pid);
    } else if leg.Execute? {
      PinnedIsHead(ws, es, n, pid);
    }
  }

  lemma FirstLook(ws: seq<World>, es: seq<Event>, n: nat, pid: nat)
    requires IsRun(ws, es) && Acts(ws, es, n, pid) && ws[n].legs[pid].leg.Look?
    ensures FirstSaw(ws, es, n + 1, pid, ws[n].legs[pid].leg.pr, HeadOf(ws[n], ws[n].legs[pid].leg.pr))
  {
    assert Saw(ws, es, n + 1, pid, ws[n].legs[pid].leg.pr, HeadOf(ws[n], ws[n].legs[pid].leg.pr), n);
  }

  lemma SecondLook(ws: seq<World>, es: seq<Event>, n: nat, pid: nat)
    requires IsRun(ws, es) && Acts(ws, es, n, pid) && ws[n].legs[pid].leg.Resnap?
    ensures ThenSaw(ws, es, n + 1, pid, ws[n].legs[pid].leg.pr, HeadOf(ws[n], ws[n].legs[pid].leg.pr))
  {
    assert SawAgain(ws, es, n + 1, pid, ws[n].legs[pid].leg.pr, HeadOf(ws[n], ws[n].legs[pid].leg.pr), n);
  }

  // The commit a merge is pinned to is the head of the snapshot it carries.
  lemma PinnedIsHead(ws: seq<World>, es: seq<Event>, n: nat, pid: nat)
    requires IsRun(ws, es) && n <= |es| && pid in ws[n].legs && ws[n].legs[pid].leg.Execute?
    ensures Head(ws[n].legs[pid].leg.snap) == Some(ws[n].legs[pid].leg.pinned)
  {
    RunKeepsInv(ws, es, n);
    var p := ws[n].legs[pid];
    assert LegPinned(p.args.key, p.leg, QueuedBy(ws, es, n), GrantedBy(ws, es, n));
  }

  lemma {:induction false} RunRemembers(ws: seq<World>, es: seq<Event>, n: nat, pid: nat)
    requires IsRun(ws, es) && n <= |es| && pid in ws[n].legs
    ensures Remembers(ws, es, n, pid, ws[n].legs[pid].leg)
    decreases n
  {
    hide Remembers, LegStep, Transition, Truthful, Asks;
    if n > 0 {
      var w, e := ws[n - 1], es[n - 1];
      if e.LegAct? && e.pid == pid {
        RunRemembers(ws, es, n - 1, pid);
        ActRemembers(ws, es, n - 1, pid);
      } else if e.LegStart? && e.pid == pid {
        StartRemembers(ws, es, n, pid);
      } else {
        assert pid in w.legs && w.legs[pid] == ws[n].legs[pid];
        RunRemembers(ws, es, n - 1, pid);
        RemembersOneOn(ws, es, n - 1, pid, w.legs[pid].leg);
      }
    }
  }

  lemma StartRemembers(ws: seq<World>, es: seq<Event>, n: nat, pid: nat)
    ensures Remembers(ws, es, n, pid, Start)
  {
  }

  // ── the recorded commit ─────────────────────────────────────────────────

  // Event k is somebody else's push, merge or close that moves the PR's head.
  predicate MovesHead(ws: seq<World>, es: seq<Event>, k: nat, pr: int) {
    k < |es| < |ws| && es[k].Outside? && HeadOf(ws[k], pr) != HeadOf(ws[k + 1], pr)
  }

  lemma HeadStays(w: World, e: Event, pr: int)
    requires Enabled(w, e) && !e.Outside?
    ensures HeadOf(Apply(w, e), pr) == HeadOf(w, pr)
  {
    hide LegStep, Transition, Asks;
  }

  // Nothing the tool does moves a head: between two worlds that differ in it
  // somebody else moved it.
  lemma {:induction false} OnlyOthersMoveHeads(ws: seq<World>, es: seq<Event>, l: nat, r: nat, pr: int)
    requires IsRun(ws, es) && l <= r <= |es| && HeadOf(ws[l], pr) != HeadOf(ws[r], pr)
    ensures exists k :: l <= k < r && MovesHead(ws, es, k, pr)
    decreases r
  {
    hide HeadOf, Apply, Enabled;
    if r > l {
      if HeadOf(ws[r - 1], pr) == HeadOf(ws[l], pr) {
        if !es[r - 1].Outside? { HeadStays(ws[r - 1], es[r - 1], pr); }
        assert MovesHead(ws, es, r - 1, pr);
      } else {
        OnlyOthersMoveHeads(ws, es, l, r - 1, pr);
      }
    }
  }

  // About to record `merged` after a failed merge command.
  predicate AfterFailure(w: World, pid: nat) {
    pid in w.legs && w.legs[pid].leg.Record? && w.legs[pid].leg.exit == MergedAfterFailure
  }

  // Such an invocation has looked twice at one PR.
  lemma LookedTwice(ws: seq<World>, es: seq<Event>, j: nat, pid: nat) returns (pr: int, l: nat, r: nat)
    requires IsRun(ws, es) && j <= |es| && AfterFailure(ws[j], pid)
    ensures var leg := ws[j].legs[pid].leg;
      Saw(ws, es, j, pid, pr, Some(leg.granted), l) && SawAgain(ws, es, j, pid, pr, leg.sha, r)
  {
    RunRemembers(ws, es, j, pid);
    var leg := ws[j].legs[pid].leg;
    pr :| FirstSaw(ws, es, j, pid, pr, Some(leg.granted)) && ThenSaw(ws, es, j, pid, pr, leg.sha);
    l :| Saw(ws, es, j, pid, pr, Some(leg.granted), l);
    r :| SawAgain(ws, es, j, pid, pr, leg.sha, r);
  }

  // In every interleaving: with l the invocation's first look and r its second,
  // the commit it records is the granted one exactly when the PR's head is at r
  // what it was at l. If not, somebody else moved the head in between.
  lemma PostFailureRecordsGrantIff(ws: seq<World>, es: seq<Event>, j: nat, pid: nat, pr: int, pr': int, l: nat, r: nat)
    requires IsRun(ws, es) && j <= |es| && AfterFailure(ws[j], pid)
    requires l < j && Looks(ws, es, l, pid, pr) && OneInvocation(es, pid, l, j)
    requires r < j && LooksAgain(ws, es, r, pid, pr') && OneInvocation(es, pid, r, j)
    ensures pr == pr' && l < r
    ensures var leg := ws[j].legs[pid].leg;
      && (leg.sha == Some(leg.granted) <==> HeadOf(ws[r], pr) == HeadOf(ws[l], pr))
      && (leg.sha != Some(leg.granted) ==> exists k :: l < k < r && MovesHead(ws, es, k, pr))
  {
    hide HeadOf, Looks, LooksAgain, OneInvocation, AfterFailure, Enabled, Apply;
    var pr0, l0, r0 := LookedTwice(ws, es, j, pid);
    SameLooks(ws, es, l, l0, j, pid, pr, pr0);
    SameSecondLooks(ws, es, r, r0, j, pid, pr', pr0);
    InOrder(ws, es, l, r, j, pid, pr);
    if HeadOf(ws[r], pr) != HeadOf(ws[l], pr) {
      OnlyOthersMoveHeads(ws, es, l, r, pr);
      LookIsNoMove(ws, es, l, pid, pr);
    }
  }

  lemma SameLooks(ws: seq<World>, es: seq<Event>, k: nat, l: nat, n: nat, pid: nat, pr: int, pr': int)
    requires IsRun(ws, es) && k < n <= |es| && l < n && OneInvocation(es, pid, k, n) && OneInvocation(es, pid, l, n)
    requires Looks(ws, es, k, pid, pr) && Looks(ws, es, l, pid, pr')
    ensures k == l && pr == pr'
  {
    hide IsRun, Looks, LooksAgain, OneInvocation;
    if k <= l { LooksOnce(ws, es, k, l, n, pid, pr, pr'); } else { LooksOnce(ws, es, l, k, n, pid, pr', pr); }
  }

  lemma SameSecondLooks(ws: seq<World>, es: seq<Event>, k: nat, l: nat, n: nat, pid: nat, pr: int, pr': int)
    requires IsRun(ws, es) && k < n <= |es| && l < n && OneInvocation(es, pid, k, n) && OneInvocation(es, pid, l, n)
    requires LooksAgain(ws, es, k, pid, pr) && LooksAgain(ws, es, l, pid, pr')
    ensures k == l && pr == pr'
  {
    hide IsRun, Looks, LooksAgain, OneInvocation;
    if k <= l { LooksOnce(ws, es, k, l, n, pid, pr, pr'); } else { LooksOnce(ws, es, l, k, n, pid, pr', pr); }
  }

  // The second look comes later.
  lemma InOrder(ws: seq<World>, es: seq<Event>, l: nat, r: nat, n: nat, pid: nat, pr: int)
    requires IsRun(ws, es) && l < n <= |es| && r < n && OneInvocation(es, pid, r, n)
    requires Looks(ws, es, l, pid, pr) && LooksAgain(ws, es, r, pid, pr)
    ensures l < r
  {
    if r < l {
      GoesOn(ws, es, r, l, pid);
    }
  }

  lemma LookIsNoMove(ws: seq<World>, es: seq<Event>, l: nat, pid: nat, pr: int)
    requires Looks(ws, es, l, pid, pr)
    ensures !MovesHead(ws, es, l, pr)
  {
  }
}
