/**
 The recency probe of the watchdog (agents/watchdog.py): the service pages a
 room oldest first and takes no start time, so the probe walks back from the
 last page. `probe` is the room when the first request was answered, `walk` the
 room while the walk ran: messages may have arrived in between.
 */
module PageWalk {
  import opened Basics

  // `terminal`: the text closes the protocol for its sender.
  datatype Msg = Msg(sender: string, ts: Option<int>, mentions: set<string>, terminal: bool)

  const PROBE_PAGE_SIZE: nat := 100
  const MAX_PROBE_PAGES: nat := 5

  // ── the service ─────────────────────────────────────────────────────────

  function Clip(room: seq<Msg>, n: nat): nat {
    if n < |room| then n else |room|
  }

  // Messages on the first `pages` pages of a long enough room.
  function Before(pages: nat): (n: nat)
    ensures n == 100 * pages
  {
    pages * PROBE_PAGE_SIZE
  }

  // Page k, counted from 1.
  function Page(room: seq<Msg>, k: nat): seq<Msg>
    requires k >= 1
  {
    room[Clip(room, Before(k - 1))..Clip(room, Before(k))]
  }

  function PageCount(room: seq<Msg>): (n: nat)
    ensures |room| <= Before(n) && (n > 0 ==> Before(n - 1) < |room|)
  {
    (|room| + PROBE_PAGE_SIZE - 1) / PROBE_PAGE_SIZE
  }

  // A full page never changes as the room grows, so one `walk` stands for
  // every answer of the walk.
  lemma FullPageIsStable(room: seq<Msg>, later: seq<Msg>, k: nat)
    requires k >= 1 && IsPrefix(room, later) && Before(k) <= |room|
    ensures Page(later, k) == Page(room, k)
  {
    assert later[..|room|] == room;
    forall i | 0 <= i < |Page(room, k)|
      ensures Page(later, k)[i] == Page(room, k)[i]
    {
      assert later[..|room|][Before(k - 1) + i] == room[Before(k - 1) + i];
    }
  }

  // ── what the walk returns ───────────────────────────────────────────────

  // The first timestamp on a page.
  function Oldest(page: seq<Msg>): Option<int> {
    if page == [] then None
    else if page[0].ts.Some? then page[0].ts
    else Oldest(page[1..])
  }

  // Only then can the window reach into the page before.
  predicate MayReachBack(page: seq<Msg>, since: int) {
    Oldest(page).Some? && Oldest(page).value >= since
  }

  function Answer(probe: seq<Msg>, walk: seq<Msg>, k: nat): seq<Msg>
    requires k >= 1
  {
    if k == 1 then Page(probe, 1) else Page(walk, k)
  }

  // How many pages are taken from page k back.
  function Depth(probe: seq<Msg>, walk: seq<Msg>, since: int, k: nat, budget: nat): (d: nat)
    ensures d <= k && d <= budget
    ensures k > 0 && budget > 0 ==> d > 0
  {
    if k == 0 || budget == 0 then 0
    else if MayReachBack(Answer(probe, walk, k), since) then 1 + Depth(probe, walk, since, k - 1, budget - 1)
    else 1
  }

  function Taken(probe: seq<Msg>, walk: seq<Msg>, since: int, n: nat): (d: nat)
    ensures d <= n && (n > 0 ==> d > 0)
  {
    Depth(probe, walk, since, n, MAX_PROBE_PAGES)
  }

  // Pages lo + 1 to hi, oldest first.
  function Joined(probe: seq<Msg>, walk: seq<Msg>, lo: nat, hi: nat): seq<Msg>
    requires lo <= hi
  {
    if lo == hi then [] else Joined(probe, walk, lo, hi - 1) + Answer(probe, walk, hi)
  }

  function Recent(probe: seq<Msg>, walk: seq<Msg>, totalPages: Option<int>, since: int): seq<Msg> {
    if totalPages.None? || totalPages.value <= 1 then Page(probe, 1)
    else
      var n := totalPages.value;
      Joined(probe, walk, n - Taken(probe, walk, since, n), n)
  }

  // Messages without a timestamp stay in every window.
  predicate InWindow(m: Msg, since: int) {
    m.ts.None? || m.ts.value >= since
  }

  function Window(ms: seq<Msg>, since: int): seq<Msg> {
    if ms == [] then []
    else Window(ms[..|ms| - 1], since) + if InWindow(ms[|ms| - 1], since) then [ms[|ms| - 1]] else []
  }

  method FirstStamp(page: seq<Msg>) returns (ts: Option<int>)
    ensures ts == Oldest(page)
  {
    for i := 0 to |page|
      invariant Oldest(page) == Oldest(page[i..])
    {
      if page[i].ts.Some? {
        return page[i].ts;
      }
      assert page[i..][1..] == page[i + 1..];
    }
    return None;
  }

  // _fetch_recent_agent_messages
  method FetchRecent(probe: seq<Msg>, walk: seq<Msg>, totalPages: Option<int>, since: int) returns (msgs: seq<Msg>)
    ensures msgs == Recent(probe, walk, totalPages, since)
  {
    hide Page, Oldest, Joined;
    var first := Page(probe, 1);
    if totalPages.None? || totalPages.value <= 1 {
      return first;
    }
    var n: nat := totalPages.value;
    var pages: seq<seq<Msg>> := [];
    var pageNo: nat := n;
    while pageNo >= 1 && |pages| < MAX_PROBE_PAGES
      invariant |pages| <= MAX_PROBE_PAGES && pageNo + |pages| == n
      invariant forall i :: 0 <= i < |pages| ==> pages[i] == Answer(probe, walk, n - i)
      invariant Taken(probe, walk, since, n)
             == |pages| + Depth(probe, walk, since, pageNo, MAX_PROBE_PAGES - |pages|)
    {
      var data := if pageNo == 1 then first else Page(walk, pageNo);
      pages := pages + [data];
      var oldest := FirstStamp(data);
      if oldest.None? || oldest.value < since {
        break;
      }
      pageNo := pageNo - 1;
    }
    msgs := OldestFirst(probe, walk, n, pages);
  }

  // Pages gathered newest first, put back in order.
  method OldestFirst(ghost probe: seq<Msg>, ghost walk: seq<Msg>, ghost n: nat, pages: seq<seq<Msg>>)
    returns (msgs: seq<Msg>)
    requires |pages| <= n && forall i :: 0 <= i < |pages| ==> pages[i] == Answer(probe, walk, n - i)
    ensures msgs == Joined(probe, walk, n - |pages|, n)
  {
    msgs := [];
    var i := |pages|;
    while i > 0
      invariant 0 <= i <= |pages|
      invariant msgs == Joined(probe, walk, n - |pages|, n - i)
    {
      i := i - 1;
      msgs := msgs + pages[i];
    }
  }

  // _list_messages on the agent API.
  method ListMessages(probe: seq<Msg>, walk: seq<Msg>, totalPages: Option<int>, since: int)
    returns (messages: seq<Msg>)
    ensures messages == Window(Recent(probe, walk, totalPages, since), since)
  {
    var raw := FetchRecent(probe, walk, totalPages, since);
    messages := [];
    for i := 0 to |raw|
      invariant messages == Window(raw[..i], since)
    {
      assert raw[..i + 1][..i] == raw[..i];
      if raw[i].ts.None? || raw[i].ts.value >= since {
        messages := messages + [raw[i]];
      }
    }
    assert raw[..|raw|] == raw;
  }

  // ── an honest service ───────────────────────────────────────────────────

  // Everything the probe could have seen: the pages that existed when it began,
  // the last of them as full as it had become.
  function Reach(probe: seq<Msg>, walk: seq<Msg>): seq<Msg> {
    if PageCount(probe) <= 1 then probe else walk[..Clip(walk, Before(PageCount(probe)))]
  }

  // Where in it the walk stopped.
  function Start(probe: seq<Msg>, walk: seq<Msg>, since: int): nat {
    var n := PageCount(probe);
    if n <= 1 then 0 else Before(n - Taken(probe, walk, since, n))
  }

  // Nothing that was there when the probe began is out of reach.
  lemma ReachCoversProbe(probe: seq<Msg>, walk: seq<Msg>)
    requires IsPrefix(probe, walk)
    ensures IsPrefix(probe, Reach(probe, walk)) && IsPrefix(Reach(probe, walk), walk)
  {
    assert Before(PageCount(probe)) >= |probe|;
  }

  lemma SliceOfPrefix<T>(s: seq<T>, m: nat, a: nat, b: nat)
    requires a <= b <= m <= |s|
    ensures s[..m][a..b] == s[a..b]
  {
  }

  lemma AnswerIsSlice(probe: seq<Msg>, walk: seq<Msg>, k: nat)
    requires IsPrefix(probe, walk) && 1 <= k <= PageCount(probe) && PageCount(probe) > 1
    ensures Answer(probe, walk, k) == Page(Reach(probe, walk), k)
    ensures Answer(probe, walk, k) != []
  {
    hide PageCount;
    if k == 1 {
      FullPageIsStable(probe, walk, 1);
    }
    var reach := Reach(probe, walk);
    assert Clip(reach, Before(k)) == Clip(walk, Before(k));
    assert Clip(reach, Before(k - 1)) == Clip(walk, Before(k - 1)) == Before(k - 1);
    SliceOfPrefix(walk, |reach|, Before(k - 1), Clip(walk, Before(k)));
  }

  lemma SlicesJoin<T>(s: seq<T>, a: nat, b: nat, c: nat)
    requires a <= b <= c <= |s|
    ensures s[a..b] + s[b..c] == s[a..c]
  {
  }

  lemma {:induction false} JoinedIsSlice(probe: seq<Msg>, walk: seq<Msg>, lo: nat, hi: nat)
    requires IsPrefix(probe, walk) && lo <= hi <= PageCount(probe) && PageCount(probe) > 1
    ensures var reach := Reach(probe, walk);
      Joined(probe, walk, lo, hi) == reach[Clip(reach, Before(lo))..Clip(reach, Before(hi))]
    decreases hi
  {
    if lo < hi {
      JoinedIsSlice(probe, walk, lo, hi - 1);
      AnswerIsSlice(probe, walk, hi);
      hide Reach, Answer, PageCount;
      var reach := Reach(probe, walk);
      SlicesJoin(reach, Clip(reach, Before(lo)), Clip(reach, Before(hi - 1)), Clip(reach, Before(hi)));
    }
  }

  lemma ReachSize(probe: seq<Msg>, walk: seq<Msg>)
    requires IsPrefix(probe, walk) && PageCount(probe) > 1
    ensures Before(PageCount(probe) - 1) < |Reach(probe, walk)| <= Before(PageCount(probe))
  {
    hide PageCount;
  }

  // The last pages, from page lo + 1 on, are the rest of what is within reach.
  lemma LastPages(probe: seq<Msg>, walk: seq<Msg>, lo: nat)
    requires IsPrefix(probe, walk) && PageCount(probe) > 1 && lo < PageCount(probe)
    ensures Before(lo) <= |Reach(probe, walk)|
    ensures Joined(probe, walk, lo, PageCount(probe)) == Reach(probe, walk)[Before(lo)..]
  {
    ReachSize(probe, walk);
    JoinedIsSlice(probe, walk, lo, PageCount(probe));
    hide Page, Joined, PageCount, Reach;
    assert Before(lo) <= Before(PageCount(probe) - 1);
  }

  // The walk returns the newest messages within reach, contiguous and in order.
  lemma RecentIsSuffix(probe: seq<Msg>, walk: seq<Msg>, since: int)
    requires IsPrefix(probe, walk)
    ensures var reach, start := Reach(probe, walk), Start(probe, walk, since);
      start <= |reach| && Recent(probe, walk, Some(PageCount(probe)), since) == reach[start..]
  {
    hide Taken, Depth, Page, Joined, PageCount, Before;
    var n := PageCount(probe);
    if n > 1 {
      hide Reach;
      LastPages(probe, walk, n - Taken(probe, walk, since, n));
    } else {
      OnePage(probe);
    }
  }

  lemma OnePage(room: seq<Msg>)
    requires PageCount(room) <= 1
    ensures Page(room, 1) == room
  {
    hide PageCount;
  }

  // ── agreement with a full scan ──────────────────────────────────────────

  lemma {:induction false} WindowConcat(a: seq<Msg>, b: seq<Msg>, since: int)
    ensures Window(a + b, since) == Window(a, since) + Window(b, since)
    decreases |b|
  {
    if b == [] {
      assert a + b == a;
    } else {
      assert (a + b)[..|a + b| - 1] == a + b[..|b| - 1];
      WindowConcat(a, b[..|b| - 1], since);
    }
  }

  lemma {:induction false} WindowEmptyIff(ms: seq<Msg>, since: int)
    ensures Window(ms, since) == [] <==> forall i :: 0 <= i < |ms| ==> !InWindow(ms[i], since)
    decreases |ms|
  {
    if ms != [] {
      var front := ms[..|ms| - 1];
      WindowEmptyIff(front, since);
      assert forall i :: 0 <= i < |front| ==> front[i] == ms[i];
    }
  }

  // For any history at all, the walk loses nothing iff nothing before the page
  // it stopped at lies in the window.
  lemma AgreesIffNothingBefore(probe: seq<Msg>, walk: seq<Msg>, since: int)
    requires IsPrefix(probe, walk)
    ensures var reach, start := Reach(probe, walk), Start(probe, walk, since);
      start <= |reach| &&
      (Window(Recent(probe, walk, Some(PageCount(probe)), since), since) == Window(reach, since)
       <==> forall i :: 0 <= i < start ==> !InWindow(reach[i], since))
  {
    hide Reach, Start, Recent, PageCount, Window;
    var reach, start := Reach(probe, walk), Start(probe, walk, since);
    RecentIsSuffix(probe, walk, since);
    LosesNothingIff(reach, start, since);
  }

  lemma LosesNothingIff(ms: seq<Msg>, start: nat, since: int)
    requires start <= |ms|
    ensures Window(ms[start..], since) == Window(ms, since) <==> forall i :: 0 <= i < start ==> !InWindow(ms[i], since)
  {
    assert ms == ms[..start] + ms[start..];
    WindowConcat(ms[..start], ms[start..], since);
    WindowEmptyIff(ms[..start], since);
    hide Window;
    assert forall i :: 0 <= i < start ==> ms[..start][i] == ms[i];
  }

  predicate Ordered(ms: seq<Msg>) {
    && (forall i :: 0 <= i < |ms| ==> ms[i].ts.Some?)
    && (forall i, j :: 0 <= i < j < |ms| ==> ms[i].ts.value <= ms[j].ts.value)
  }

  // Six pages or more, and the message just before the newest five is recent.
  predicate CutShort(probe: seq<Msg>, walk: seq<Msg>, since: int)
    requires IsPrefix(probe, walk)
  {
    PageCount(probe) > MAX_PROBE_PAGES &&
    InWindow(walk[Before(PageCount(probe) - MAX_PROBE_PAGES) - 1], since)
  }

  // Where a walk that still may go back stands: every page taken begins inside
  // the window, or the last one taken begins before it.
  lemma {:induction false} DepthMeets(probe: seq<Msg>, walk: seq<Msg>, since: int, k: nat, budget: nat)
    requires IsPrefix(probe, walk) && k <= PageCount(probe) && PageCount(probe) > 1
    requires Ordered(walk)
    ensures var d := Depth(probe, walk, since, k, budget);
      && d <= k
      && (d < k && d < budget ==> walk[Before(k - d)].ts.value < since)
    decreases k
  {
    hide Answer, Oldest, PageCount;
    if k > 0 && budget > 0 {
      PageBegins(probe, walk, k);
      if MayReachBack(Answer(probe, walk, k), since) {
        DepthMeets(probe, walk, since, k - 1, budget - 1);
      }
    }
  }

  lemma PageBegins(probe: seq<Msg>, walk: seq<Msg>, k: nat)
    requires IsPrefix(probe, walk) && 1 <= k <= PageCount(probe) && PageCount(probe) > 1
    requires Ordered(walk)
    ensures Before(k - 1) < |walk|
    ensures Oldest(Answer(probe, walk, k)) == walk[Before(k - 1)].ts
  {
    AnswerIsSlice(probe, walk, k);
    assert Answer(probe, walk, k)[0] == walk[Before(k - 1)];
  }

  // While pages begin inside the window the walk takes them all.
  lemma {:induction false} DepthIsBudget(probe: seq<Msg>, walk: seq<Msg>, since: int, k: nat, budget: nat)
    requires budget <= k
    requires forall j :: k - budget < j <= k ==> MayReachBack(Answer(probe, walk, j), since)
    ensures Depth(probe, walk, since, k, budget) == budget
    decreases k
  {
    if budget > 0 {
      assert MayReachBack(Answer(probe, walk, k), since);
      DepthIsBudget(probe, walk, since, k - 1, budget - 1);
    }
  }

  lemma PageReachesBack(probe: seq<Msg>, walk: seq<Msg>, since: int, k: nat, i: nat)
    requires IsPrefix(probe, walk) && 1 <= k <= PageCount(probe) && PageCount(probe) > 1
    requires Ordered(walk) && i < Before(k - 1) && i < |walk| && walk[i].ts.value >= since
    ensures MayReachBack(Answer(probe, walk, k), since)
  {
    PageBegins(probe, walk, k);
    hide Answer, Oldest, PageCount, Before;
  }

  lemma CutShortStopsInside(probe: seq<Msg>, walk: seq<Msg>, since: int)
    requires IsPrefix(probe, walk) && Ordered(walk) && CutShort(probe, walk, since)
    ensures var start := Start(probe, walk, since);
      0 < start <= |walk| && InWindow(walk[start - 1], since)
  {
    hide PageCount;
    var n := PageCount(probe);
    forall j | n - MAX_PROBE_PAGES < j <= n
      ensures MayReachBack(Answer(probe, walk, j), since)
    {
      PageReachesBack(probe, walk, since, j, Before(n - MAX_PROBE_PAGES) - 1);
    }
    hide Depth;
    DepthIsBudget(probe, walk, since, n, MAX_PROBE_PAGES);
  }

  lemma OtherwiseStopsOutside(probe: seq<Msg>, walk: seq<Msg>, since: int)
    requires IsPrefix(probe, walk) && Ordered(walk) && !CutShort(probe, walk, since)
    ensures Start(probe, walk, since) <= |walk|
    ensures forall i :: 0 <= i < Start(probe, walk, since) ==> !InWindow(walk[i], since)
  {
    var n, start := PageCount(probe), Start(probe, walk, since);
    if n > 1 && start > 0 {
      hide Depth;
      DepthMeets(probe, walk, since, n, MAX_PROBE_PAGES);
      assert walk[start - 1].ts.value < since by {
        if Taken(probe, walk, since, n) < MAX_PROBE_PAGES {
          assert walk[start - 1].ts.value <= walk[start].ts.value;
        }
      }
    }
  }

  // On a time-ordered history the filtered walk equals the filtered history,
  // except exactly when five pages did not reach back to the window's edge.
  lemma PageWalkAgreesIff(probe: seq<Msg>, walk: seq<Msg>, since: int)
    requires IsPrefix(probe, walk) && Ordered(walk)
    ensures Window(Recent(probe, walk, Some(PageCount(probe)), since), since) == Window(Reach(probe, walk), since)
       <==> !CutShort(probe, walk, since)
  {
    hide Start, Recent, Window, Reach, PageCount, Ordered;
    AgreesIffNothingBefore(probe, walk, since);
    ReachCoversProbe(probe, walk);
    var reach := Reach(probe, walk);
    assert forall i :: 0 <= i < |reach| ==> reach[i] == walk[..|reach|][i];
    hide IsPrefix;
    if CutShort(probe, walk, since) {
      CutShortStopsInside(probe, walk, since);
    } else {
      OtherwiseStopsOutside(probe, walk, since);
    }
  }

  // ── how far the window and five pages reach ─────────────────────────────

  // The window filter keeps, in order, exactly the messages stamped no earlier
  // than `since` and those without a stamp.
  lemma {:induction false} WindowAt(ms: seq<Msg>, since: int) returns (pos: seq<nat>)
    ensures |Window(ms, since)| == |pos| && forall i, j :: 0 <= i < j < |pos| ==> pos[i] < pos[j]
    ensures forall j :: 0 <= j < |pos| ==> pos[j] < |ms| && Window(ms, since)[j] == ms[pos[j]]
    ensures forall p: nat :: p < |ms| ==> (p in pos <==> ms[p].ts == None || ms[p].ts.value >= since)
    decreases |ms|
  {
    if ms == [] {
      pos := [];
    } else {
      var n := |ms| - 1;
      var front := WindowAt(ms[..n], since);
      pos := front + if InWindow(ms[n], since) then [n] else [];
      assert n !in front;
      forall p: nat | p < n
        ensures p in pos <==> ms[p].ts == None || ms[p].ts.value >= since
      {
        assert ms[..n][p] == ms[p];
      }
    }
  }

  // A room that held no more than five hundred messages is never cut short.
  lemma FiveHundredAreSeen(probe: seq<Msg>, walk: seq<Msg>, since: int)
    requires IsPrefix(probe, walk) && Ordered(walk) && |probe| <= 500
    ensures Window(Recent(probe, walk, Some(PageCount(probe)), since), since) == Window(Reach(probe, walk), since)
  {
    assert PageCount(probe) <= 5;
    hide PageCount;
    PageWalkAgreesIff(probe, walk, since);
  }

  // One message more, all of them recent, and it is.
  lemma OneMoreIsCutShort(room: seq<Msg>, since: int)
    requires Ordered(room) && |room| == 501 && room[0].ts.value >= since
    ensures Window(Recent(room, room, Some(PageCount(room)), since), since) != Window(Reach(room, room), since)
  {
    assert PageCount(room) == 6;
    assert room[Before(1) - 1].ts.value >= room[0].ts.value;
    hide PageCount;
    PageWalkAgreesIff(room, room, since);
  }
}
