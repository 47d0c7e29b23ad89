/**
 The local memory store (memory/local_store.py): one file of records, appended
 to by store, rewritten and compacted by archive, scanned by list; writers of
 any number of processes serialize on a lock file of their own.
 */
module MemoryLog {
  import opened Basics

  datatype Rec = Rec(
    id: string, content: string, system: string, kind: string, segment: string, scope: string,
    subject: Option<string>, status: string, archivedAt: Option<int>)

  const ARCHIVED_KEEP_LAST: nat := 50

  predicate Archived(r: Rec) {
    r.status == "archived"
  }

  // ── archiving, without compaction ───────────────────────────────────────

  predicate Hit(r: Rec, id: string) {
    r.id == id && !Archived(r)
  }

  function Retire(r: Rec, stamp: int): Rec {
    r.(status := "archived", archivedAt := Some(stamp))
  }

  // The index of the first record to retire; |rs| if there is none.
  function Find(rs: seq<Rec>, id: string): (i: nat)
    ensures i <= |rs|
    ensures i < |rs| ==> Hit(rs[i], id)
    ensures forall j :: 0 <= j < i ==> !Hit(rs[j], id)
  {
    if rs == [] then 0
    else
      var i := Find(rs[..|rs| - 1], id);
      if i < |rs| - 1 then i else if Hit(rs[|rs| - 1], id) then |rs| - 1 else |rs|
  }

  function RetireFirst(rs: seq<Rec>, id: string, stamp: int): seq<Rec> {
    var i := Find(rs, id);
    if i < |rs| then rs[i := Retire(rs[i], stamp)] else rs
  }

  // ── compaction ──────────────────────────────────────────────────────────

  // Every live record, and of the archived ones the `budget` nearest the end.
  function Keep(rs: seq<Rec>, budget: nat): seq<Rec> {
    if rs == [] then []
    else
      var front, last := rs[..|rs| - 1], rs[|rs| - 1];
      if !Archived(last) then Keep(front, budget) + [last]
      else if budget > 0 then Keep(front, budget - 1) + [last]
      else Keep(front, 0)
  }

  function ArchivedCount(rs: seq<Rec>): nat {
    if rs == [] then 0 else ArchivedCount(rs[..|rs| - 1]) + if Archived(rs[|rs| - 1]) then 1 else 0
  }

  function Live(rs: seq<Rec>): seq<Rec> {
    if rs == [] then []
    else Live(rs[..|rs| - 1]) + if Archived(rs[|rs| - 1]) then [] else [rs[|rs| - 1]]
  }

  lemma KeepSnoc(rs: seq<Rec>, r: Rec, budget: nat)
    ensures Keep(rs + [r], budget) ==
      if !Archived(r) then Keep(rs, budget) + [r] else if budget > 0 then Keep(rs, budget - 1) + [r] else Keep(rs, 0)
  {
    assert (rs + [r])[..|rs|] == rs;
  }

  lemma CountSnoc(rs: seq<Rec>, r: Rec)
    ensures ArchivedCount(rs + [r]) == ArchivedCount(rs) + if Archived(r) then 1 else 0
    ensures Live(rs + [r]) == Live(rs) + if Archived(r) then [] else [r]
  {
    assert (rs + [r])[..|rs|] == rs;
  }

  // Every live record stays, in order; at most `budget` archived ones do.
  lemma {:induction false} KeepBounds(rs: seq<Rec>, budget: nat)
    ensures ArchivedCount(Keep(rs, budget)) == if ArchivedCount(rs) <= budget then ArchivedCount(rs) else budget
    ensures Live(Keep(rs, budget)) == Live(rs)
    decreases |rs|
  {
    if rs != [] {
      var front, last := rs[..|rs| - 1], rs[|rs| - 1];
      var less := Less(last, budget);
      KeepBounds(front, less);
      CountSnoc(Keep(front, less), last);
    }
  }

  // The budget left for the records before this one.
  function Less(last: Rec, budget: nat): nat {
    if Archived(last) && budget > 0 then budget - 1 else budget
  }

  // Keeping fewer of what was kept is keeping fewer.
  lemma {:induction false} KeepKeep(rs: seq<Rec>, budget: nat, fewer: nat)
    requires fewer <= budget
    ensures Keep(Keep(rs, budget), fewer) == Keep(rs, fewer)
    decreases |rs|
  {
    if rs != [] {
      var front, last := rs[..|rs| - 1], rs[|rs| - 1];
      KeepKeep(front, Less(last, budget), Less(last, fewer));
      KeepSnoc(Keep(front, Less(last, budget)), last, fewer);
    }
  }

  lemma RetireSnoc(rs: seq<Rec>, r: Rec, id: string, stamp: int)
    ensures RetireFirst(rs + [r], id, stamp) ==
      if Find(rs, id) == |rs| && Hit(r, id) then rs + [Retire(r, stamp)] else RetireFirst(rs, id, stamp) + [r]
  {
    assert (rs + [r])[..|rs|] == rs;
  }

  lemma FindSnoc(rs: seq<Rec>, r: Rec, id: string)
    ensures Find(rs + [r], id) < |rs + [r]| <==> Find(rs, id) < |rs| || Hit(r, id)
  {
    assert (rs + [r])[..|rs|] == rs;
  }

  lemma {:induction false} FindInLive(rs: seq<Rec>, budget: nat, id: string)
    ensures Find(Keep(rs, budget), id) < |Keep(rs, budget)| <==> Find(rs, id) < |rs|
    decreases |rs|
  {
    if rs != [] {
      var front, last := rs[..|rs| - 1], rs[|rs| - 1];
      assert rs == front + [last];
      FindInLive(front, Less(last, budget), id);
      FindInLast(front, last, budget, id);
    }
  }

  lemma FindInLast(front: seq<Rec>, last: Rec, budget: nat, id: string)
    requires var kept := Keep(front, Less(last, budget)); Find(kept, id) < |kept| <==> Find(front, id) < |front|
    ensures var rs := front + [last]; Find(Keep(rs, budget), id) < |Keep(rs, budget)| <==> Find(rs, id) < |rs|
  {
    hide Find, Keep;
    KeepSnoc(front, last, budget);
    FindSnoc(front, last, id);
    FindSnoc(Keep(front, Less(last, budget)), last, id);
  }

  // The record to retire is the last one.
  lemma RetireLast(front: seq<Rec>, last: Rec, budget: nat, id: string, stamp: int)
    requires Find(front, id) == |front| && Hit(last, id)
    ensures var rs := front + [last];
      Keep(RetireFirst(Keep(rs, budget), id, stamp), budget) == Keep(RetireFirst(rs, id, stamp), budget)
  {
    hide Keep, RetireFirst, Find;
    var kept, gone := Keep(front, budget), Retire(last, stamp);
    KeepSnoc(front, last, budget);
    FindInLive(front, budget, id);
    RetireSnoc(front, last, id, stamp);
    RetireSnoc(kept, last, id, stamp);
    assert RetireFirst(Keep(front + [last], budget), id, stamp) == kept + [gone];
    KeepSnoc(front, gone, budget);
    KeepSnoc(kept, gone, budget);
    KeepKeep(front, budget, Less(gone, budget));
  }

  // It is an earlier one, or there is none.
  lemma {:induction false} RetireEarlier(front: seq<Rec>, last: Rec, budget: nat, id: string, stamp: int)
    requires Find(front, id) < |front| || !Hit(last, id)
    requires var less := Less(last, budget);
      Keep(RetireFirst(Keep(front, less), id, stamp), less) == Keep(RetireFirst(front, id, stamp), less)
    ensures var rs := front + [last];
      Keep(RetireFirst(Keep(rs, budget), id, stamp), budget) == Keep(RetireFirst(rs, id, stamp), budget)
  {
    var kept := Keep(front, Less(last, budget));
    KeepSnoc(front, last, budget);
    FindInLive(front, Less(last, budget), id);
    RetireSnoc(front, last, id, stamp);
    RetireSnoc(kept, last, id, stamp);
    KeepSnoc(RetireFirst(front, id, stamp), last, budget);
    KeepSnoc(RetireFirst(kept, id, stamp), last, budget);
    hide Keep, RetireFirst, Find;
  }

  // Compacting before archiving makes no difference to compacting after.
  lemma {:induction false} KeepThenRetire(rs: seq<Rec>, budget: nat, id: string, stamp: int)
    ensures Keep(RetireFirst(Keep(rs, budget), id, stamp), budget) == Keep(RetireFirst(rs, id, stamp), budget)
    decreases |rs|
  {
    if rs != [] {
      var front, last := rs[..|rs| - 1], rs[|rs| - 1];
      assert rs == front + [last];
      KeepThenRetire(front, Less(last, budget), id, stamp);
      hide Keep, RetireFirst;
      if Find(front, id) == |front| && Hit(last, id) {
        RetireLast(front, last, budget, id, stamp);
      } else {
        RetireEarlier(front, last, budget, id, stamp);
      }
    }
  }

  // ── the log as a sequence of operations ─────────────────────────────────

  datatype Op = Store(rec: Rec) | Archive(id: string, stamp: int)

  // What each does to the file.
  function Apply(rs: seq<Rec>, op: Op): seq<Rec> {
    match op
    case Store(rec) => rs + [rec]
    case Archive(id, stamp) =>
      if Find(rs, id) == |rs| then rs else Keep(RetireFirst(rs, id, stamp), ARCHIVED_KEEP_LAST)
  }

  // What each would do to a list that is never compacted.
  function ApplySimply(rs: seq<Rec>, op: Op): seq<Rec> {
    match op
    case Store(rec) => rs + [rec]
    case Archive(id, stamp) => RetireFirst(rs, id, stamp)
  }

  function File(rs: seq<Rec>, ops: seq<Op>): seq<Rec> {
    if ops == [] then rs else Apply(File(rs, ops[..|ops| - 1]), ops[|ops| - 1])
  }

  function Uncompacted(rs: seq<Rec>, ops: seq<Op>): seq<Rec> {
    if ops == [] then rs else ApplySimply(Uncompacted(rs, ops[..|ops| - 1]), ops[|ops| - 1])
  }

  // store writes active records only.
  predicate StoresLive(ops: seq<Op>) {
    forall op <- ops :: op.Store? ==> op.rec.status == "active"
  }

  lemma {:induction false} KeepAll(rs: seq<Rec>, budget: nat)
    requires ArchivedCount(rs) <= budget
    ensures Keep(rs, budget) == rs
    decreases |rs|
  {
    if rs != [] {
      KeepAll(rs[..|rs| - 1], Less(rs[|rs| - 1], budget));
    }
  }

  // After any operations the file is the full history with only the newest
  // fifty archived records, by file order, left in it.
  lemma {:induction false} FileIsCompacted(rs: seq<Rec>, ops: seq<Op>)
    requires ArchivedCount(rs) <= ARCHIVED_KEEP_LAST && StoresLive(ops)
    ensures File(rs, ops) == Keep(Uncompacted(rs, ops), ARCHIVED_KEEP_LAST)
    decreases |ops|
  {
    if ops == [] {
      KeepAll(rs, ARCHIVED_KEEP_LAST);
    } else {
      var front, op := ops[..|ops| - 1], ops[|ops| - 1];
      assert op in ops;
      FileIsCompacted(rs, front);
      var h := Uncompacted(rs, front);
      match op {
        case Store(rec) => KeepSnoc(h, rec, ARCHIVED_KEEP_LAST);
        case Archive(id, stamp) =>
          FindInLive(h, ARCHIVED_KEEP_LAST, id);
          KeepThenRetire(h, ARCHIVED_KEEP_LAST, id, stamp);
          hide Keep;
      }
    }
  }

  // So at most fifty archived records are ever in the file, and exactly the
  // live records of the full history are.
  lemma {:induction false} FileBounds(rs: seq<Rec>, ops: seq<Op>)
    requires ArchivedCount(rs) <= ARCHIVED_KEEP_LAST && StoresLive(ops)
    ensures Live(File(rs, ops)) == Live(Uncompacted(rs, ops))
    ensures ArchivedCount(File(rs, ops)) ==
      if ArchivedCount(Uncompacted(rs, ops)) <= ARCHIVED_KEEP_LAST
      then ArchivedCount(Uncompacted(rs, ops))
      else ARCHIVED_KEEP_LAST
  {
    FileIsCompacted(rs, ops);
    KeepBounds(Uncompacted(rs, ops), ARCHIVED_KEEP_LAST);
  }

  // ── live means stored and not archived since ────────────────────────────

  predicate ArchivedIn(ops: seq<Op>, id: string) {
    exists op :: op in ops && op.Archive? && op.id == id
  }

  // What the first of some operations leaves behind.
  function Stays(first: Op, rest: seq<Op>): seq<Rec> {
    if first.Store? && !ArchivedIn(rest, first.rec.id) then [first.rec] else []
  }

  // The records stored and not archived later, in the order they were stored.
  function Outstanding(ops: seq<Op>): seq<Rec> {
    if ops == [] then [] else Stays(ops[0], ops[1..]) + Outstanding(ops[1..])
  }

  function Without(rs: seq<Rec>, id: string): seq<Rec> {
    if rs == [] then []
    else Without(rs[..|rs| - 1], id) + if rs[|rs| - 1].id == id then [] else [rs[|rs| - 1]]
  }

  lemma {:induction false} WithoutConcat(a: seq<Rec>, b: seq<Rec>, id: string)
    ensures Without(a + b, id) == Without(a, id) + Without(b, id)
    decreases |b|
  {
    if b == [] {
      assert a + b == a;
    } else {
      assert (a + b)[..|a + b| - 1] == a + b[..|b| - 1];
      WithoutConcat(a, b[..|b| - 1], id);
    }
  }

  lemma ArchivedInSnoc(ops: seq<Op>, op: Op, id: string)
    ensures ArchivedIn(ops + [op], id) <==> ArchivedIn(ops, id) || (op.Archive? && op.id == id)
  {
    assert op in ops + [op];
    assert forall o :: o in ops ==> o in ops + [op];
  }

  lemma WithoutStays(first: Op, rest: seq<Op>, id: string)
    ensures Without(Stays(first, rest), id) ==
      if first.Store? && first.rec.id == id then [] else Stays(first, rest)
  {
    if first.Store? { assert [first.rec][..0] == []; }
  }

  lemma {:induction false} OutstandingSnoc(ops: seq<Op>, op: Op)
    ensures Outstanding(ops + [op]) ==
      if op.Store? then Outstanding(ops) + [op.rec] else Without(Outstanding(ops), op.id)
    decreases |ops|
  {
    if ops == [] {
      assert (ops + [op])[1..] == [];
      assert !ArchivedIn([], if op.Store? then op.rec.id else "");
    } else {
      var rest := ops[1..];
      assert (ops + [op])[1..] == rest + [op];
      OutstandingSnoc(rest, op);
      if ops[0].Store? {
        ArchivedInSnoc(rest, op, ops[0].rec.id);
      }
      if op.Archive? {
        WithoutConcat(Stays(ops[0], rest), Outstanding(rest), op.id);
        WithoutStays(ops[0], rest, op.id);
      }
      assert Outstanding(ops + [op]) == Stays(ops[0], rest + [op]) + Outstanding(rest + [op]);
      hide ArchivedIn, Without;
    }
  }

  predicate DistinctIds(rs: seq<Rec>) {
    forall i, j :: 0 <= i < j < |rs| ==> rs[i].id != rs[j].id
  }

  // Every stored record gets an id of its own.
  predicate FreshIds(ops: seq<Op>) {
    forall i, j :: 0 <= i < j < |ops| && ops[i].Store? && ops[j].Store? ==> ops[i].rec.id != ops[j].rec.id
  }

  lemma {:induction false} UncompactedIds(ops: seq<Op>)
    requires FreshIds(ops)
    ensures DistinctIds(Uncompacted([], ops))
    ensures forall r :: r in Uncompacted([], ops) ==>
      exists i :: 0 <= i < |ops| && ops[i].Store? && ops[i].rec.id == r.id
    decreases |ops|
  {
    if ops != [] {
      var front, op := ops[..|ops| - 1], ops[|ops| - 1];
      UncompactedIds(front);
      var h, after := Uncompacted([], front), Uncompacted([], ops);
      forall r | r in after
        ensures exists i :: 0 <= i < |ops| && ops[i].Store? && ops[i].rec.id == r.id
      {
        if op.Store? && r == op.rec {
          assert ops[|ops| - 1].rec.id == r.id;
        } else {
          var was :| was in h && was.id == r.id;
          var i :| 0 <= i < |front| && front[i].Store? && front[i].rec.id == was.id;
          assert ops[i] == front[i];
        }
      }
    }
  }

  lemma WithoutSnoc(rs: seq<Rec>, r: Rec, id: string)
    ensures Without(rs + [r], id) == Without(rs, id) + if r.id == id then [] else [r]
  {
    assert (rs + [r])[..|rs|] == rs;
  }

  lemma {:induction false} RetireIsWithout(rs: seq<Rec>, id: string, stamp: int)
    requires DistinctIds(rs)
    ensures Live(RetireFirst(rs, id, stamp)) == Without(Live(rs), id)
    decreases |rs|
  {
    if rs != [] {
      var front, last := rs[..|rs| - 1], rs[|rs| - 1];
      assert rs == front + [last];
      RetireIsWithout(front, id, stamp);
      RetireStep(front, last, id, stamp);
    }
  }

  lemma {:induction false} RetireStep(front: seq<Rec>, last: Rec, id: string, stamp: int)
    requires DistinctIds(front + [last])
    requires Live(RetireFirst(front, id, stamp)) == Without(Live(front), id)
    ensures Live(RetireFirst(front + [last], id, stamp)) == Without(Live(front + [last]), id)
  {
    hide Live, Without;
    RetireSnoc(front, last, id, stamp);
    CountSnoc(front, last);
    assert Live(front) + [] == Live(front);
    WithoutSnoc(Live(front), last, id);
    if Find(front, id) == |front| && Hit(last, id) {
      CountSnoc(front, Retire(last, stamp));
    } else {
      CountSnoc(RetireFirst(front, id, stamp), last);
      if Find(front, id) < |front| {
        var rs := front + [last];
        assert rs[Find(front, id)] == front[Find(front, id)] && rs[|front|] == last;
        assert last.id != id;
      }
    }
  }

  // The live records are exactly those stored and not archived since, in the
  // order they were stored.
  lemma {:induction false} LiveIsOutstanding(ops: seq<Op>)
    requires StoresLive(ops) && FreshIds(ops)
    ensures Live(Uncompacted([], ops)) == Outstanding(ops)
    decreases |ops|
  {
    if ops != [] {
      var front, op := ops[..|ops| - 1], ops[|ops| - 1];
      assert ops == front + [op];
      LiveIsOutstanding(front);
      OutstandingSnoc(front, op);
      UncompactedIds(front);
      var h := Uncompacted([], front);
      match op {
        case Store(rec) => CountSnoc(h, rec);
        case Archive(id, stamp) => RetireIsWithout(h, id, stamp);
      }
    }
  }

  // ── reading ─────────────────────────────────────────────────────────────

  datatype Query = Query(
    subject: Option<string>, scope: Option<string>, system: Option<string>, kind: Option<string>,
    segment: Option<string>, content: Option<string>, status: Option<string>)

  function FirstLine(text: string): string {
    if text == "" || text[0] == '\n' then "" else [text[0]] + FirstLine(text[1..])
  }

  predicate Contains(text: string, part: string) {
    exists i :: 0 <= i <= |text| && part <= text[i..]
  }

  predicate Is(want: Option<string>, have: string) {
    want.None? || want.value == have
  }

  predicate StatusIs(want: Option<string>, have: string) {
    want == Some("all") || have == (if want.None? || want.value == "" then "active" else want.value)
  }

  // `lower` stands for the case folding of the text's first line and the query.
  predicate Matches(r: Rec, q: Query, lower: string -> string) {
    && StatusIs(q.status, r.status)
    && (q.subject.None? || r.subject == q.subject)
    && Is(q.scope, r.scope) && Is(q.system, r.system) && Is(q.kind, r.kind) && Is(q.segment, r.segment)
    && (q.content.Some? && q.content.value != "" ==> Contains(lower(FirstLine(r.content)), lower(q.content.value)))
  }

  function Matching(rs: seq<Rec>, q: Query, lower: string -> string): seq<Rec> {
    if rs == [] then []
    else Matching(rs[..|rs| - 1], q, lower) + if Matches(rs[|rs| - 1], q, lower) then [rs[|rs| - 1]] else []
  }

  // `matches[-page_size:]`, taken only when there are more than that; zero asks
  // for all, and a negative size drops that many of the oldest.
  function Trailing(ms: seq<Rec>, pageSize: int): seq<Rec> {
    if pageSize == 0 || |ms| <= pageSize then ms
    else if pageSize > 0 then ms[|ms| - pageSize..]
    else ms[if -pageSize < |ms| then -pageSize else |ms|..]
  }

  // Only live records can match when no status is asked for.
  lemma {:induction false} MatchingLive(rs: seq<Rec>, q: Query, lower: string -> string)
    requires q.status.None? || q.status.value == "" || q.status.value == "active"
    requires forall r <- rs :: r.status == "active" || r.status == "archived"
    ensures Matching(rs, q, lower) == Matching(Live(rs), q, lower)
    decreases |rs|
  {
    if rs != [] {
      var front, last := rs[..|rs| - 1], rs[|rs| - 1];
      assert rs == front + [last];
      MatchingLive(front, q, lower);
      if !Archived(last) {
        assert (Live(front) + [last])[..|Live(front)|] == Live(front);
      } else {
        assert |last.status| == 8;
        assert !StatusIs(q.status, last.status);
        assert !Matches(last, q, lower);
        assert Live(rs) == Live(front);
      }
    }
  }

  lemma {:induction false} FileStatuses(ops: seq<Op>)
    requires StoresLive(ops)
    ensures forall r <- File([], ops) :: r.status == "active" || r.status == "archived"
    decreases |ops|
  {
    if ops != [] {
      var front, op := ops[..|ops| - 1], ops[|ops| - 1];
      assert op in ops;
      FileStatuses(front);
      var f := File([], front);
      if op.Archive? {
        KeepKeeps(RetireFirst(f, op.id, op.stamp), ARCHIVED_KEEP_LAST);
      }
    }
  }

  lemma {:induction false} KeepKeeps(rs: seq<Rec>, budget: nat)
    ensures forall r :: r in Keep(rs, budget) ==> r in rs
    decreases |rs|
  {
    if rs != [] {
      KeepKeeps(rs[..|rs| - 1], Less(rs[|rs| - 1], budget));
    }
  }

  // A default listing is the trailing page of the matches among the records
  // stored and not archived since: compaction cannot be seen through it.
  lemma ListingIsOutstanding(ops: seq<Op>, q: Query, lower: string -> string, pageSize: int)
    requires StoresLive(ops) && FreshIds(ops)
    requires q.status.None? || q.status.value == "" || q.status.value == "active"
    ensures Trailing(Matching(File([], ops), q, lower), pageSize)
         == Trailing(Matching(Outstanding(ops), q, lower), pageSize)
  {
    FileStatuses(ops);
    MatchingLive(File([], ops), q, lower);
    FileBounds([], ops);
    LiveIsOutstanding(ops);
  }

  // ── what an archive leaves of its own record ────────────────────────────

  lemma {:induction false} KeptIff(rs: seq<Rec>, budget: nat, i: nat)
    requires DistinctIds(rs) && i < |rs| && Archived(rs[i])
    ensures rs[i] in Keep(rs, budget) <==> ArchivedCount(rs[i + 1..]) < budget
    decreases |rs|
  {
    var front, last := rs[..|rs| - 1], rs[|rs| - 1];
    var less := Less(last, budget);
    KeepKeeps(front, less);
    if i == |front| {
      assert rs[i + 1..] == [];
      assert forall r :: r in front ==> r.id != last.id;
    } else {
      KeptIff(front, less, i);
      CountSnoc(rs[i + 1..|front|], last);
      assert rs[i + 1..] == rs[i + 1..|front|] + [last];
      assert front[i + 1..] == rs[i + 1..|front|];
      assert rs[i].id != last.id;
    }
  }

  // archive returns the record it retired, but the record is still in the file
  // afterwards exactly when fewer than fifty archived ones follow it.
  lemma {:induction false} JustArchivedStaysIff(rs: seq<Rec>, id: string, stamp: int)
    requires DistinctIds(rs) && Find(rs, id) < |rs|
    ensures var i := Find(rs, id);
      Retire(rs[i], stamp) in Apply(rs, Archive(id, stamp)) <==> ArchivedCount(rs[i + 1..]) < ARCHIVED_KEEP_LAST
  {
    var i := Find(rs, id);
    var after := RetireFirst(rs, id, stamp);
    assert after[i + 1..] == rs[i + 1..];
    KeptIff(after, ARCHIVED_KEEP_LAST, i);
  }

  // Fifty-one records stored, all but the first archived.

  function Name(i: nat): string {
    seq(i, _ => 'x')
  }

  function Note(i: nat): Rec {
    Rec(Name(i), "", "", "", "", "", None, "active", None)
  }

  function Stores(n: nat): seq<Op> {
    seq(n, (i: nat) => Store(Note(i)))
  }

  function Archives(n: nat): seq<Op> {
    seq(n, (i: nat) => Archive(Name(i + 1), 0))
  }

  function Notes(n: nat, archived: nat): seq<Rec> {
    seq(n, (i: nat) => if 1 <= i <= archived then Retire(Note(i), 0) else Note(i))
  }

  lemma {:induction false} StoredNotes(n: nat)
    ensures Uncompacted([], Stores(n)) == Notes(n, 0)
  {
    if n > 0 {
      StoredNotes(n - 1);
      assert Stores(n)[..n - 1] == Stores(n - 1);
      assert Notes(n, 0) == Notes(n - 1, 0) + [Note(n - 1)];
    }
  }

  lemma NoteToRetire(n: nat, k: nat)
    requires 0 < k < n
    ensures RetireFirst(Notes(n, k - 1), Name(k), 0) == Notes(n, k)
  {
    var rs := Notes(n, k - 1);
    assert Hit(rs[k], Name(k));
    forall i | 0 <= i < n && i != k
      ensures rs[i].id != Name(k)
    {
      assert |rs[i].id| == i && |Name(k)| == k;
    }
    assert Find(rs, Name(k)) == k;
    assert rs[k := Retire(rs[k], 0)] == Notes(n, k);
  }

  lemma {:induction false} ArchivedNotes(n: nat, k: nat)
    requires k < n
    ensures Uncompacted([], Stores(n) + Archives(k)) == Notes(n, k)
  {
    if k == 0 {
      StoredNotes(n);
      assert Stores(n) + Archives(0) == Stores(n);
    } else {
      ArchivedNotes(n, k - 1);
      var ops := Stores(n) + Archives(k);
      assert ops[..|ops| - 1] == Stores(n) + Archives(k - 1);
      assert ops[|ops| - 1] == Archive(Name(k), 0);
      NoteToRetire(n, k);
    }
  }

  lemma {:induction false} CountTail(rs: seq<Rec>)
    requires forall i :: 0 < i < |rs| ==> Archived(rs[i])
    ensures rs != [] ==> ArchivedCount(rs) == |rs| - if Archived(rs[0]) then 0 else 1
    decreases |rs|
  {
    if |rs| > 1 {
      CountTail(rs[..|rs| - 1]);
    }
  }

  // Archiving the first of them now drops it from the file altogether.
  lemma ArchiveDropsItsOwnRecord(stamp: int)
    ensures var ops := Stores(51) + Archives(50);
      var file := File([], ops);
      && StoresLive(ops) && FreshIds(ops)
      && Find(file, Name(0)) < |file|
      && Retire(file[Find(file, Name(0))], stamp) !in File([], ops + [Archive(Name(0), stamp)])
  {
    var ops := Stores(51) + Archives(50);
    CrowdedFile();
    hide Stores, Archives;
    var file := Notes(51, 50);
    assert (ops + [Archive(Name(0), stamp)])[..|ops|] == ops;
    assert Hit(file[0], Name(0)) && Find(file, Name(0)) == 0;
    NotesAreDistinct(51, 50);
    CountTail(file[1..]);
    JustArchivedStaysIff(file, Name(0), stamp);
  }

  lemma NotesAreDistinct(n: nat, k: nat)
    ensures DistinctIds(Notes(n, k))
  {
    forall i, j | 0 <= i < j < n
      ensures Notes(n, k)[i].id != Notes(n, k)[j].id
    {
      assert |Notes(n, k)[i].id| == i && |Notes(n, k)[j].id| == j;
    }
  }

  lemma CrowdedFile()
    ensures var ops := Stores(51) + Archives(50);
      StoresLive(ops) && FreshIds(ops) && File([], ops) == Notes(51, 50)
  {
    var ops := Stores(51) + Archives(50);
    ArchivedNotes(51, 50);
    CountTail(Notes(51, 50));
    forall i, j | 0 <= i < j < |ops| && ops[i].Store? && ops[j].Store?
      ensures ops[i].rec.id != ops[j].rec.id
    {
      assert |ops[i].rec.id| == i && |ops[j].rec.id| == j;
    }
    FileIsCompacted([], ops);
    KeepAll(Notes(51, 50), ARCHIVED_KEEP_LAST);
  }

  // ── the store ───────────────────────────────────────────────────────────

  class LocalMemoryStore {
    var records: seq<Rec>

    constructor ()
      ensures records == []
    {
      records := [];
    }

    method StoreRecord(rec: Rec)
      modifies this
      ensures records == Apply(old(records), Store(rec))
    {
      records := records + [rec];
    }

    method ArchiveRecord(id: string, stamp: int) returns (updated: Option<Rec>)
      modifies this
      ensures records == Apply(old(records), Archive(id, stamp))
      ensures var i := Find(old(records), id);
        updated == if i < |old(records)| then Some(Retire(old(records)[i], stamp)) else None
    {
      var i := 0;
      while i < |records| && !(records[i].id == id && records[i].status != "archived")
        invariant 0 <= i <= |records|
        invariant forall j :: 0 <= j < i ==> !Hit(records[j], id)
      {
        i := i + 1;
      }
      if i == |records| {
        return None;
      }
      var rec := records[i].(status := "archived", archivedAt := Some(stamp));
      records := Compact(records[i := rec]);
      return Some(rec);
    }

    // _compact: the oldest archived records beyond the bound are dropped.
    static method Compact(records: seq<Rec>) returns (kept: seq<Rec>)
      ensures kept == Keep(records, ARCHIVED_KEEP_LAST)
    {
      var archived := 0;
      for i := 0 to |records|
        invariant archived == ArchivedCount(records[..i])
      {
        assert records[..i + 1][..i] == records[..i];
        if records[i].status == "archived" { archived := archived + 1; }
      }
      assert records[..|records|] == records;
      var overflow := archived - ARCHIVED_KEEP_LAST;
      if overflow <= 0 {
        KeepAll(records, ARCHIVED_KEEP_LAST);
        return records;
      }
      kept := [];
      var dropped := 0;
      for i := 0 to |records|
        invariant kept == Dropping(records[..i], overflow)
        invariant dropped == if ArchivedCount(records[..i]) < overflow then ArchivedCount(records[..i]) else overflow
      {
        assert records[..i + 1][..i] == records[..i];
        if records[i].status == "archived" && dropped < overflow {
          dropped := dropped + 1;
        } else {
          kept := kept + [records[i]];
        }
      }
      DroppingIsKeep(records, ARCHIVED_KEEP_LAST, overflow);
    }

    // list, oldest match first.
    method List(q: Query, lower: string -> string, pageSize: int) returns (data: seq<Rec>)
      ensures data == Trailing(Matching(records, q, lower), pageSize)
    {
      data := [];
      for i := 0 to |records|
        invariant data == Matching(records[..i], q, lower)
      {
        assert records[..i + 1][..i] == records[..i];
        if Matches(records[i], q, lower) {
          data := data + [records[i]];
        }
      }
      assert records[..|records|] == records;
      if pageSize != 0 && |data| > pageSize {
        data := if pageSize > 0 then data[|data| - pageSize..]
                else data[if -pageSize < |data| then -pageSize else |data|..];
      }
    }
  }

  // The first `n` archived records dropped.
  function Dropping(rs: seq<Rec>, n: nat): seq<Rec> {
    if rs == [] then []
    else
      var front, last := rs[..|rs| - 1], rs[|rs| - 1];
      if Archived(last) && ArchivedCount(front) < n then Dropping(front, n) else Dropping(front, n) + [last]
  }

  lemma {:induction false} DroppingIsKeep(rs: seq<Rec>, budget: nat, n: nat)
    requires ArchivedCount(rs) == budget + n || (budget == 0 && ArchivedCount(rs) <= n)
    ensures Dropping(rs, n) == Keep(rs, budget)
    decreases |rs|
  {
    if rs != [] {
      DroppingIsKeep(rs[..|rs| - 1], Less(rs[|rs| - 1], budget), n);
    }
  }

  // ── any number of writers ───────────────────────────────────────────────

  // What each writer is about to do next.
  datatype Writer =
    | StoreLocks(rec: Rec)
    | StoreOpens(rec: Rec)
    | StoreWrites(rec: Rec, inode: nat)
    | ArchiveLocks(id: string, stamp: int)
    | ArchiveReads(id: string, stamp: int)
    | ArchiveReplaces(id: string, stamp: int, read: seq<Rec>)
    | Unlocks

  // `path` is the inode the data file's name leads to.
  datatype Disk = Disk(
    inodes: map<nat, seq<Rec>>, path: nat, unused: nat, holder: Option<nat>, writers: map<nat, Writer>)

  datatype Event = Start(pid: nat, op: Op) | Act(pid: nat) | Crash(pid: nat)

  predicate Locking(w: Writer) {
    w.StoreLocks? || w.ArchiveLocks?
  }

  predicate Enabled(d: Disk, e: Event) {
    match e
    case Start(pid, _) => pid !in d.writers
    case Act(pid) => pid in d.writers && (Locking(d.writers[pid]) ==> d.holder.None?)
    case Crash(pid) => pid in d.writers
  }

  function Step(d: Disk, e: Event): Disk
    requires Enabled(d, e) && d.path in d.inodes
  {
    match e
    case Start(pid, Store(rec)) => d.(writers := d.writers[pid := StoreLocks(rec)])
    case Start(pid, Archive(id, stamp)) => d.(writers := d.writers[pid := ArchiveLocks(id, stamp)])
    case Crash(pid) => d.(writers := d.writers - {pid}, holder := if d.holder == Some(pid) then None else d.holder)
    case Act(pid) =>
      match d.writers[pid]
      case StoreLocks(rec) => d.(holder := Some(pid), writers := d.writers[pid := StoreOpens(rec)])
      case StoreOpens(rec) => d.(writers := d.writers[pid := StoreWrites(rec, d.path)])
      case StoreWrites(rec, inode) =>
        d.(inodes := if inode in d.inodes then d.inodes[inode := d.inodes[inode] + [rec]] else d.inodes,
           writers := d.writers[pid := Unlocks])
      case ArchiveLocks(id, stamp) => d.(holder := Some(pid), writers := d.writers[pid := ArchiveReads(id, stamp)])
      case ArchiveReads(id, stamp) => d.(writers := d.writers[pid := ArchiveReplaces(id, stamp, d.inodes[d.path])])
      case ArchiveReplaces(id, stamp, read) =>
        if Find(read, id) == |read| then d.(writers := d.writers[pid := Unlocks])
        else d.(inodes := d.inodes[d.unused := Apply(read, Archive(id, stamp))],
                path := d.unused, unused := d.unused + 1, writers := d.writers[pid := Unlocks])
      case Unlocks => d.(holder := None, writers := d.writers - {pid})
  }

  // The operation an action completes, if it completes one.
  function Effect(d: Disk, e: Event): seq<Op> {
    if !e.Act? || e.pid !in d.writers then []
    else
      match d.writers[e.pid]
      case StoreWrites(rec, _) => [Store(rec)]
      case ArchiveReplaces(id, stamp, _) => [Archive(id, stamp)]
      case _ => []
  }

  // Past the lock, a writer holds it, and what it opened or read is current.
  predicate WriterOk(d: Disk, pid: nat, w: Writer)
    requires d.path in d.inodes
  {
    && (!Locking(w) ==> d.holder == Some(pid))
    && (w.StoreWrites? ==> w.inode == d.path)
    && (w.ArchiveReplaces? ==> w.read == d.inodes[d.path])
  }

  predicate DiskInv(d: Disk) {
    && d.path in d.inodes && d.unused !in d.inodes && (forall i :: i in d.inodes ==> i < d.unused)
    && (forall pid :: pid in d.writers ==> WriterOk(d, pid, d.writers[pid]))
  }

  lemma StepKeepsInv(d: Disk, e: Event)
    requires DiskInv(d) && Enabled(d, e)
    ensures DiskInv(Step(d, e))
  {
    hide Apply, Find;
    var after := Step(d, e);
    forall pid | pid in after.writers
      ensures WriterOk(after, pid, after.writers[pid])
    {
      if pid in d.writers { assert WriterOk(d, pid, d.writers[pid]); }
      if e.pid in d.writers { assert WriterOk(d, e.pid, d.writers[e.pid]); }
    }
  }

  // One action of one writer does to the file what the operation it completes
  // does, and otherwise nothing.
  lemma StepRefines(d: Disk, e: Event)
    requires DiskInv(d) && Enabled(d, e)
    ensures DiskInv(Step(d, e))
    ensures var after := Step(d, e);
      after.inodes[after.path] == File(d.inodes[d.path], Effect(d, e))
  {
    StepKeepsInv(d, e);
    hide Keep, RetireFirst;
    if e.pid in d.writers { assert WriterOk(d, e.pid, d.writers[e.pid]); }
    assert forall op: Op :: [op][..0] == [];
  }

  predicate AllEnabled(d: Disk, es: seq<Event>)
    requires DiskInv(d)
    decreases |es|
  {
    es == [] || (Enabled(d, es[0]) && (StepKeepsInv(d, es[0]); AllEnabled(Step(d, es[0]), es[1..])))
  }

  function StepAll(d: Disk, es: seq<Event>): (after: Disk)
    requires DiskInv(d) && AllEnabled(d, es)
    ensures DiskInv(after)
    decreases |es|
  {
    if es == [] then d else StepKeepsInv(d, es[0]); StepAll(Step(d, es[0]), es[1..])
  }

  function Effects(d: Disk, es: seq<Event>): seq<Op>
    requires DiskInv(d) && AllEnabled(d, es)
    decreases |es|
  {
    if es == [] then []
    else StepKeepsInv(d, es[0]); Effect(d, es[0]) + Effects(Step(d, es[0]), es[1..])
  }

  lemma {:induction false} FileConcat(rs: seq<Rec>, a: seq<Op>, b: seq<Op>)
    ensures File(rs, a + b) == File(File(rs, a), b)
    decreases |b|
  {
    if b == [] {
      assert a + b == a;
    } else {
      assert (a + b)[..|a + b| - 1] == a + b[..|b| - 1];
      FileConcat(rs, a, b[..|b| - 1]);
    }
  }

  // Every interleaving of writers, crashes included, leaves the file as the
  // completed operations would, done one after another in the order in which
  // they took effect: no append is lost to a rewrite.
  lemma {:induction false} WritersAreSerial(d: Disk, es: seq<Event>)
    requires DiskInv(d) && AllEnabled(d, es)
    ensures var after := StepAll(d, es);
      after.inodes[after.path] == File(d.inodes[d.path], Effects(d, es))
    decreases |es|
  {
    hide Step, Effect, Enabled;
    if es != [] {
      StepRefines(d, es[0]);
      WritersAreSerial(Step(d, es[0]), es[1..]);
      FileConcat(d.inodes[d.path], Effect(d, es[0]), Effects(Step(d, es[0]), es[1..]));
    }
  }

  // ── writers from an empty file ──────────────────────────────────────────

  // A record a writer still has to write.
  function Pending(w: Writer): set<string> {
    match w
    case StoreLocks(rec) => {rec.id}
    case StoreOpens(rec) => {rec.id}
    case StoreWrites(rec, _) => {rec.id}
    case _ => {}
  }

  predicate WritesLive(w: Writer) {
    match w
    case StoreLocks(rec) => rec.status == "active"
    case StoreOpens(rec) => rec.status == "active"
    case StoreWrites(rec, _) => rec.status == "active"
    case _ => true
  }

  // Stores still to come carry active records with ids of their own: not among
  // those in flight, and no two alike.
  predicate FreshStarts(d: Disk, es: seq<Event>) {
    && (forall i :: 0 <= i < |es| && es[i].Start? && es[i].op.Store? ==>
          && es[i].op.rec.status == "active"
          && forall pid :: pid in d.writers ==> es[i].op.rec.id !in Pending(d.writers[pid]))
    && (forall i, j :: 0 <= i < j < |es| && es[i].Start? && es[i].op.Store? && es[j].Start? && es[j].op.Store? ==>
          es[i].op.rec.id != es[j].op.rec.id)
    && (forall pid :: pid in d.writers ==> WritesLive(d.writers[pid]))
    && (forall p, q :: p in d.writers && q in d.writers && p != q ==> Pending(d.writers[p]) !! Pending(d.writers[q]))
  }

  // Ids that are in flight or still to come.
  predicate MayStore(d: Disk, es: seq<Event>, id: string) {
    || (exists pid :: pid in d.writers && id in Pending(d.writers[pid]))
    || (exists i :: 0 <= i < |es| && es[i].Start? && es[i].op.Store? && es[i].op.rec.id == id)
  }

  // What an event does to one writer's record.
  lemma PendingStep(d: Disk, e: Event, pid: nat)
    requires Enabled(d, e) && d.path in d.inodes && pid in Step(d, e).writers
    ensures var w := Step(d, e).writers[pid];
      if pid in d.writers
      then Pending(w) <= Pending(d.writers[pid]) && (WritesLive(d.writers[pid]) ==> WritesLive(w))
      else
        && e.Start? && e.pid == pid
        && Pending(w) == (if e.op.Store? then {e.op.rec.id} else {})
        && (WritesLive(w) <==> (e.op.Store? ==> e.op.rec.status == "active"))
  {
    hide Apply, Find;
  }

  lemma RestOf(es: seq<Event>)
    requires es != []
    ensures forall i :: 0 <= i < |es[1..]| ==> es[1..][i] == es[i + 1]
  {
  }

  lemma FreshStep(d: Disk, es: seq<Event>)
    requires es != [] && FreshStarts(d, es) && d.path in d.inodes && Enabled(d, es[0])
    ensures FreshStarts(Step(d, es[0]), es[1..])
  {
    var after, rest := Step(d, es[0]), es[1..];
    forall pid | pid in after.writers
      ensures WritesLive(after.writers[pid])
    {
      PendingStep(d, es[0], pid);
    }
    StartsStayFresh(d, es);
    FlightsStayApart(d, es);
    hide Step, Enabled, Pending, WritesLive;
    RestOf(es);
  }

  lemma StartsStayFresh(d: Disk, es: seq<Event>)
    requires es != [] && FreshStarts(d, es) && d.path in d.inodes && Enabled(d, es[0])
    ensures forall i, pid ::
      0 <= i < |es[1..]| && es[1..][i].Start? && es[1..][i].op.Store? && pid in Step(d, es[0]).writers ==>
      es[1..][i].op.rec.id !in Pending(Step(d, es[0]).writers[pid])
  {
    hide Step, Enabled, Pending, WritesLive;
    var after, rest := Step(d, es[0]), es[1..];
    RestOf(es);
    forall i, pid | 0 <= i < |rest| && rest[i].Start? && rest[i].op.Store? && pid in after.writers
      ensures rest[i].op.rec.id !in Pending(after.writers[pid])
    {
      PendingStep(d, es[0], pid);
      assert rest[i] == es[i + 1];
    }
  }

  lemma FlightsStayApart(d: Disk, es: seq<Event>)
    requires es != [] && FreshStarts(d, es) && d.path in d.inodes && Enabled(d, es[0])
    ensures var after := Step(d, es[0]);
      forall p, q :: p in after.writers && q in after.writers && p != q ==>
        Pending(after.writers[p]) !! Pending(after.writers[q])
  {
    hide Step, Enabled, Pending, WritesLive;
    var after := Step(d, es[0]);
    forall p, q | p in after.writers && q in after.writers && p != q
      ensures Pending(after.writers[p]) !! Pending(after.writers[q])
    {
      PendingStep(d, es[0], p);
      PendingStep(d, es[0], q);
    }
  }

  // A step makes no new id storable.
  lemma MayStoreShrinks(d: Disk, es: seq<Event>, id: string)
    requires es != [] && d.path in d.inodes && Enabled(d, es[0])
    requires MayStore(Step(d, es[0]), es[1..], id)
    ensures MayStore(d, es, id)
  {
    hide Step, Enabled, Pending;
    var after, rest := Step(d, es[0]), es[1..];
    if pid :| pid in after.writers && id in Pending(after.writers[pid]) {
      PendingStep(d, es[0], pid);
    } else {
      RestOf(es);
      var i :| 0 <= i < |rest| && rest[i].Start? && rest[i].op.Store? && rest[i].op.rec.id == id;
      assert es[i + 1].op.rec.id == id;
    }
  }

  lemma WriterDone(d: Disk, e: Event)
    requires Enabled(d, e) && d.path in d.inodes && |Effect(d, e)| == 1 && Effect(d, e)[0].Store?
    ensures var rec, after := Effect(d, e)[0].rec, Step(d, e);
      && e.Act? && e.pid in d.writers && Pending(d.writers[e.pid]) == {rec.id}
      && (WritesLive(d.writers[e.pid]) ==> rec.status == "active")
      && (forall pid :: pid in after.writers ==> pid in d.writers)
      && e.pid in after.writers && Pending(after.writers[e.pid]) == {}
  {
    hide Apply, Find;
  }

  // What a step stores is active, was storable, and is not storable again.
  lemma StoredOnce(d: Disk, es: seq<Event>)
    requires es != [] && FreshStarts(d, es) && d.path in d.inodes && Enabled(d, es[0])
    requires |Effect(d, es[0])| == 1 && Effect(d, es[0])[0].Store?
    ensures var rec := Effect(d, es[0])[0].rec;
      rec.status == "active" && MayStore(d, es, rec.id) && !MayStore(Step(d, es[0]), es[1..], rec.id)
  {
    hide Step, Enabled, Pending, WritesLive, Effect;
    WriterDone(d, es[0]);
    var id, after, rest := Effect(d, es[0])[0].rec.id, Step(d, es[0]), es[1..];
    forall pid | pid in after.writers
      ensures id !in Pending(after.writers[pid])
    {
      PendingStep(d, es[0], pid);
    }
    RestOf(es);
    forall i | 0 <= i < |rest| && rest[i].Start? && rest[i].op.Store?
      ensures rest[i].op.rec.id != id
    {
      assert rest[i] == es[i + 1];
    }
  }

  predicate StoresIn(ops: seq<Op>, i: nat) {
    i < |ops| && ops[i].Store?
  }

  // What the completed operations store: active records, each id once.
  lemma {:induction false} EffectsAreFresh(d: Disk, es: seq<Event>)
    requires DiskInv(d) && AllEnabled(d, es) && FreshStarts(d, es)
    ensures StoresLive(Effects(d, es)) && FreshIds(Effects(d, es))
    ensures forall i: nat :: StoresIn(Effects(d, es), i) ==> MayStore(d, es, Effects(d, es)[i].rec.id)
    decreases |es|
  {
    if es != [] {
      var after, rest := Step(d, es[0]), es[1..];
      StepKeepsInv(d, es[0]);
      FreshStep(d, es);
      EffectsAreFresh(after, rest);
      var first, more := Effect(d, es[0]), Effects(after, rest);
      forall i: nat | StoresIn(more, i)
        ensures MayStore(d, es, more[i].rec.id)
      {
        MayStoreShrinks(d, es, more[i].rec.id);
      }
      EffectShape(d, es[0]);
      if |first| == 1 && first[0].Store? {
        StoredOnce(d, es);
      }
      hide Step, Effect, Enabled, FreshStarts, MayStore, DiskInv;
      JoinFresh(d, es, first, more);
    }
  }

  lemma EffectShape(d: Disk, e: Event)
    ensures Effect(d, e) == [] || (|Effect(d, e)| == 1 && Effect(d, e) == [Effect(d, e)[0]])
  {
  }

  // One completed operation before others that do not repeat its id.
  lemma JoinFresh(d: Disk, es: seq<Event>, first: seq<Op>, more: seq<Op>)
    requires first == [] || |first| == 1
    requires StoresLive(more) && FreshIds(more)
    requires forall i: nat :: StoresIn(more, i) ==> MayStore(d, es, more[i].rec.id)
    requires |first| == 1 && first[0].Store? ==>
      && first[0].rec.status == "active" && MayStore(d, es, first[0].rec.id)
      && forall i: nat :: StoresIn(more, i) ==> more[i].rec.id != first[0].rec.id
    ensures StoresLive(first + more) && FreshIds(first + more)
    ensures forall i: nat :: StoresIn(first + more, i) ==> MayStore(d, es, (first + more)[i].rec.id)
  {
    hide MayStore;
    var all := first + more;
    forall op | op in all && op.Store?
      ensures op.rec.status == "active"
    {
      if op in more {} else { assert op == first[0]; }
    }
    forall i: nat | StoresIn(all, i)
      ensures MayStore(d, es, all[i].rec.id)
    {
      if i >= |first| { assert StoresIn(more, i - |first|); }
    }
    forall i, j | 0 <= i < j < |all| && all[i].Store? && all[j].Store?
      ensures all[i].rec.id != all[j].rec.id
    {
      assert StoresIn(more, j - |first|);
    }
  }

  const EMPTY_DISK := Disk(map[0 := []], 0, 1, None, map[])

  // From an empty file, in every interleaving of writers with crashes at any
  // points: the live records are exactly those stored and not archived since, in
  // the order they were stored; at most fifty archived ones are kept; and a
  // default listing is the trailing page of the matches among the live ones.
  lemma WritersFromEmpty(es: seq<Event>, q: Query, lower: string -> string, pageSize: int)
    requires DiskInv(EMPTY_DISK) && AllEnabled(EMPTY_DISK, es) && FreshStarts(EMPTY_DISK, es)
    requires q.status.None? || q.status.value == "" || q.status.value == "active"
    ensures var end, ops := StepAll(EMPTY_DISK, es), Effects(EMPTY_DISK, es);
      var file := end.inodes[end.path];
      && Live(file) == Outstanding(ops)
      && ArchivedCount(file) <= ARCHIVED_KEEP_LAST
      && Trailing(Matching(file, q, lower), pageSize) == Trailing(Matching(Outstanding(ops), q, lower), pageSize)
  {
    var ops := Effects(EMPTY_DISK, es);
    WritersAreSerial(EMPTY_DISK, es);
    EffectsAreFresh(EMPTY_DISK, es);
    assert EMPTY_DISK.inodes[EMPTY_DISK.path] == [];
    hide StepAll, Effects, File, Outstanding, Live, ArchivedCount, Matching, Trailing, Uncompacted;
    FileBoundsFromEmpty(ops);
    ListingIsOutstanding(ops, q, lower, pageSize);
  }

  lemma FileBoundsFromEmpty(ops: seq<Op>)
    requires StoresLive(ops) && FreshIds(ops)
    ensures Live(File([], ops)) == Outstanding(ops) && ArchivedCount(File([], ops)) <= ARCHIVED_KEEP_LAST
  {
    FileBounds([], ops);
    LiveIsOutstanding(ops);
    hide File, Outstanding, Live, Uncompacted;
  }
}
