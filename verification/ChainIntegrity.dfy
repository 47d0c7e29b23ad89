/**
 The hash-chained ledgers (state/store.py) and the two patrols over them
 (agents/watchdog.py): the incremental walk from a remembered tip and the full
 sweep from row 1. Hashing is free: two digests agree only on equal contents.
 */
module ChainIntegrity {
  import opened Basics

  datatype Hash = Genesis | Digest(id: nat, body: string, prev: Hash)

  // `body` stands for the hashed business columns other than the id.
  datatype Row = Row(id: nat, body: string, prevHash: Option<Hash>, rowHash: Option<Hash>)

  predicate Sorted(rows: seq<Row>) {
    && (forall i :: 0 <= i < |rows| ==> rows[i].id > 0)
    && (forall i, j :: 0 <= i < j < |rows| ==> rows[i].id < rows[j].id)
  }

  function RowHash(r: Row, prev: Hash): Hash {
    Digest(r.id, r.body, prev)
  }

  predicate LinksTo(r: Row, prev: Hash) {
    r.prevHash == Some(prev) && r.rowHash == Some(RowHash(r, prev))
  }

  // ── writing ─────────────────────────────────────────────────────────────

  // The row_hash of the newest row that has one.
  function ChainHead(rows: seq<Row>): Hash {
    if rows == [] then Genesis
    else if rows[|rows| - 1].rowHash.Some? then rows[|rows| - 1].rowHash.value
    else ChainHead(rows[..|rows| - 1])
  }

  function Chained(rows: seq<Row>, id: nat, body: string): Row {
    var prev := ChainHead(rows);
    Row(id, body, Some(prev), Some(Digest(id, body, prev)))
  }

  // An appended row links to the newest row that carries a hash, and to the
  // beginning only when none does.
  lemma {:induction false} HeadIsNewestHash(rows: seq<Row>)
    ensures (forall i :: 0 <= i < |rows| ==> rows[i].rowHash.None?) ==> ChainHead(rows) == Genesis
    ensures (exists i :: 0 <= i < |rows| && rows[i].rowHash.Some?) ==>
      exists i :: 0 <= i < |rows| && rows[i].rowHash == Some(ChainHead(rows))
                  && forall j :: i < j < |rows| ==> rows[j].rowHash.None?
    decreases |rows|
  {
    if rows != [] && rows[|rows| - 1].rowHash.None? {
      var front := rows[..|rows| - 1];
      HeadIsNewestHash(front);
      if exists i :: 0 <= i < |rows| && rows[i].rowHash.Some? {
        var k :| 0 <= k < |rows| && rows[k].rowHash.Some?;
        assert front[k].rowHash.Some?;
        var i :| 0 <= i < |front| && front[i].rowHash == Some(ChainHead(front))
          && forall j :: i < j < |front| ==> front[j].rowHash.None?;
        assert rows[i].rowHash == Some(ChainHead(rows));
      }
    }
  }

  // ── verify_chain ────────────────────────────────────────────────────────

  // `head` is the last verified row; a break names the first bad row.
  datatype Verdict = Verdict(broken: Option<nat>, headId: nat, headHash: Option<Hash>)

  function Expected(hash: Option<Hash>): Hash {
    if hash.None? then Genesis else hash.value
  }

  function WalkRows(rows: seq<Row>, headId: nat, headHash: Option<Hash>): Verdict {
    if rows == [] then Verdict(None, headId, headHash)
    else if LinksTo(rows[0], Expected(headHash)) then WalkRows(rows[1..], rows[0].id, rows[0].rowHash)
    else Verdict(Some(rows[0].id), headId, headHash)
  }

  // Rows past `id`, and rows up to it, of an id-ordered table.
  function CountUpto(rows: seq<Row>, id: nat): nat
    ensures CountUpto(rows, id) <= |rows|
  {
    if rows == [] || rows[0].id > id then 0 else 1 + CountUpto(rows[1..], id)
  }

  function Upto(rows: seq<Row>, id: nat): seq<Row> {
    rows[..CountUpto(rows, id)]
  }

  function Newer(rows: seq<Row>, id: nat): seq<Row> {
    rows[CountUpto(rows, id)..]
  }

  function VerifyChain(rows: seq<Row>, afterId: nat, prevHash: Option<Hash>): Verdict {
    WalkRows(Newer(rows, afterId), afterId, prevHash)
  }

  // ── the two patrols ─────────────────────────────────────────────────────

  datatype Tip = Tip(id: nat, hash: Option<Hash>)

  const NO_TIP := Tip(0, None)

  datatype Problem = HeadRegression | ChainBreak(id: nat)

  datatype Patrolled = Patrolled(tip: Tip, problem: Option<Problem>)

  // The remembered row is still there with its remembered hash.
  predicate TipStands(rows: seq<Row>, tip: Tip) {
    tip.id > 0 ==> exists i :: 0 <= i < |rows| && rows[i].id == tip.id && rows[i].rowHash == tip.hash
  }

  function LastTip(rows: seq<Row>): Tip {
    if rows == [] then NO_TIP else Tip(rows[|rows| - 1].id, rows[|rows| - 1].rowHash)
  }

  function Reported(v: Verdict): Option<Problem> {
    if v.broken.Some? then Some(ChainBreak(v.broken.value)) else None
  }

  function Incremental(rows: seq<Row>, tip: Tip): Patrolled {
    if !TipStands(rows, tip) then Patrolled(LastTip(rows), Some(HeadRegression))
    else
      var v := VerifyChain(rows, tip.id, tip.hash);
      Patrolled(Tip(v.headId, v.headHash), Reported(v))
  }

  function Full(rows: seq<Row>): Option<Problem> {
    Reported(VerifyChain(rows, 0, None))
  }

  const CHAINS := ["transition_log", "audit_log"]

  class LedgerWatch {
    var tips: map<string, Tip>

    constructor ()
      ensures tips == map[]
    {
      tips := map[];
    }

    function TipOf(chain: string): Tip
      reads this
    {
      if chain in tips then tips[chain] else NO_TIP
    }

    // verify_chain: one pass over the rows past `afterId`.
    method Verify(rows: seq<Row>, afterId: nat, prevHash: Option<Hash>) returns (v: Verdict)
      requires Sorted(rows)
      ensures v == VerifyChain(rows, afterId, prevHash)
    {
      var newer := Newer(rows, afterId);
      var expected := Expected(prevHash);
      var headId, headHash := afterId, prevHash;
      var i := 0;
      while i < |newer|
        invariant 0 <= i <= |newer|
        invariant expected == Expected(headHash)
        invariant WalkRows(newer[i..], headId, headHash) == VerifyChain(rows, afterId, prevHash)
      {
        var row := newer[i];
        var recomputed := RowHash(row, expected);
        if row.prevHash != Some(expected) || row.rowHash != Some(recomputed) {
          return Verdict(Some(row.id), headId, headHash);
        }
        assert newer[i..][1..] == newer[i + 1..];
        headId, headHash, expected := row.id, row.rowHash, recomputed;
        i := i + 1;
      }
      assert newer[i..] == [];
      return Verdict(None, headId, headHash);
    }

    // One chain of _verify_chains_incremental.
    method PatrolChain(chain: string, rows: seq<Row>) returns (problem: Option<Problem>)
      requires Sorted(rows)
      modifies this
      ensures problem == Incremental(rows, old(TipOf(chain))).problem
      ensures tips == old(tips)[chain := Incremental(rows, old(TipOf(chain))).tip]
    {
      var tip := TipOf(chain);
      if tip.id > 0 {
        var stands := false;
        for i := 0 to |rows|
          invariant stands <==> exists k :: 0 <= k < i && rows[k].id == tip.id && rows[k].rowHash == tip.hash
        {
          if rows[i].id == tip.id && rows[i].rowHash == tip.hash {
            stands := true;
          }
        }
        if !stands {
          tips := tips[chain := LastTip(rows)];
          return Some(HeadRegression);
        }
      }
      var v := Verify(rows, tip.id, tip.hash);
      tips := tips[chain := Tip(v.headId, v.headHash)];
      return Reported(v);
    }

    // Both chains, the transition log first.
    method VerifyChainsIncremental(transitions: seq<Row>, audits: seq<Row>)
      returns (transitionProblem: Option<Problem>, auditProblem: Option<Problem>)
      requires Sorted(transitions) && Sorted(audits)
      modifies this
      ensures transitionProblem == Incremental(transitions, old(TipOf(CHAINS[0]))).problem
      ensures auditProblem == Incremental(audits, old(TipOf(CHAINS[1]))).problem
      ensures TipOf(CHAINS[0]) == Incremental(transitions, old(TipOf(CHAINS[0]))).tip
      ensures TipOf(CHAINS[1]) == Incremental(audits, old(TipOf(CHAINS[1]))).tip
    {
      assert CHAINS[0][0] != CHAINS[1][0];
      transitionProblem := PatrolChain(CHAINS[0], transitions);
      auditProblem := PatrolChain(CHAINS[1], audits);
    }

    // The deep sweep: stateless, from row 1.
    method VerifyChainsFull(transitions: seq<Row>, audits: seq<Row>)
      returns (transitionProblem: Option<Problem>, auditProblem: Option<Problem>)
      requires Sorted(transitions) && Sorted(audits)
      ensures transitionProblem == Full(transitions) && auditProblem == Full(audits)
    {
      var t := Verify(transitions, 0, None);
      var a := Verify(audits, 0, None);
      return Reported(t), Reported(a);
    }
  }

  // ── walking a concatenation ─────────────────────────────────────────────

  lemma {:induction false} WalkConcat(a: seq<Row>, b: seq<Row>, id: nat, hash: Option<Hash>)
    ensures var v := WalkRows(a, id, hash);
      WalkRows(a + b, id, hash) == if v.broken.None? then WalkRows(b, v.headId, v.headHash) else v
    decreases |a|
  {
    if a == [] {
      assert a + b == b;
    } else {
      assert (a + b)[1..] == a[1..] + b;
      WalkConcat(a[1..], b, a[0].id, a[0].rowHash);
    }
  }

  // A walk that ends well ends at the last row.
  lemma {:induction false} GoodWalkEnds(rows: seq<Row>, id: nat, hash: Option<Hash>)
    requires rows != [] && WalkRows(rows, id, hash).broken.None?
    ensures var last := rows[|rows| - 1];
      WalkRows(rows, id, hash) == Verdict(None, last.id, last.rowHash)
    decreases |rows|
  {
    if |rows| > 1 {
      GoodWalkEnds(rows[1..], rows[0].id, rows[0].rowHash);
    }
  }

  // A broken walk names one of its rows.
  lemma {:induction false} BreakIsARow(rows: seq<Row>, id: nat, hash: Option<Hash>)
    requires WalkRows(rows, id, hash).broken.Some?
    ensures exists i :: 0 <= i < |rows| && rows[i].id == WalkRows(rows, id, hash).broken.value
    decreases |rows|
  {
    if LinksTo(rows[0], Expected(hash)) {
      BreakIsARow(rows[1..], rows[0].id, rows[0].rowHash);
      var i :| 0 <= i < |rows[1..]| && rows[1..][i].id == WalkRows(rows, id, hash).broken.value;
      assert rows[i + 1].id == WalkRows(rows, id, hash).broken.value;
    }
  }

  lemma {:induction false} CountUptoSplits(rows: seq<Row>, id: nat)
    requires Sorted(rows)
    ensures forall i :: 0 <= i < CountUpto(rows, id) ==> rows[i].id <= id
    ensures forall i :: CountUpto(rows, id) <= i < |rows| ==> rows[i].id > id
    decreases |rows|
  {
    if rows != [] && rows[0].id <= id {
      CountUptoSplits(rows[1..], id);
      var n := CountUpto(rows[1..], id);
      forall i | 0 <= i < |rows|
        ensures i < n + 1 ==> rows[i].id <= id
        ensures n + 1 <= i ==> rows[i].id > id
      {
        if i > 0 { assert rows[i] == rows[1..][i - 1]; }
      }
    }
  }

  // Rows up to the tip verify from genesis and end at the remembered hash.
  predicate Intact(rows: seq<Row>, tip: Tip) {
    WalkRows(Upto(rows, tip.id), 0, None) == Verdict(None, tip.id, tip.hash)
  }

  // The rows up to a tip that stands end with the tip row itself.
  lemma UptoEndsAtTip(rows: seq<Row>, tip: Tip)
    requires Sorted(rows) && tip.id > 0 && TipStands(rows, tip)
    ensures var u := Upto(rows, tip.id);
      u != [] && u[|u| - 1].id == tip.id && u[|u| - 1].rowHash == tip.hash
  {
    CountUptoSplits(rows, tip.id);
    var i :| 0 <= i < |rows| && rows[i].id == tip.id && rows[i].rowHash == tip.hash;
    assert forall j :: i < j < |rows| ==> rows[j].id > tip.id;
  }

  lemma UptoVerifiesIffIntact(rows: seq<Row>, tip: Tip)
    requires Sorted(rows) && TipStands(rows, tip) && (tip.id == 0 ==> tip.hash.None?)
    ensures WalkRows(Upto(rows, tip.id), 0, None).broken.None? <==> Intact(rows, tip)
  {
    var u := Upto(rows, tip.id);
    CountUptoSplits(rows, tip.id);
    if tip.id == 0 {
      assert u == [];
    } else {
      UptoEndsAtTip(rows, tip);
      if WalkRows(u, 0, None).broken.None? {
        GoodWalkEnds(u, 0, None);
      }
    }
  }

  lemma FullFrom0(rows: seq<Row>)
    requires Sorted(rows)
    ensures VerifyChain(rows, 0, None) == WalkRows(rows, 0, None)
  {
    CountUptoSplits(rows, 0);
    assert Newer(rows, 0) == rows;
  }

  // While the remembered tip stands, the incremental patrol reports exactly
  // what the full sweep does - the same break at the same row, or none - if and
  // only if the rows up to the tip still verify.
  lemma AgreesIffPrefixVerifies(rows: seq<Row>, tip: Tip)
    requires Sorted(rows) && TipStands(rows, tip) && (tip.id == 0 ==> tip.hash.None?)
    ensures Incremental(rows, tip).problem == Full(rows)
       <==> WalkRows(Upto(rows, tip.id), 0, None).broken.None?
  {
    var u, n := Upto(rows, tip.id), Newer(rows, tip.id);
    assert u + n == rows;
    FullFrom0(rows);
    WalkConcat(u, n, 0, None);
    UptoVerifiesIffIntact(rows, tip);
    CountUptoSplits(rows, tip.id);
    if WalkRows(u, 0, None).broken.Some? {
      BreakIsARow(u, 0, None);
      if WalkRows(n, tip.id, tip.hash).broken.Some? {
        BreakIsARow(n, tip.id, tip.hash);
      }
    }
  }

  // A removed or rewritten tip is always reported as a regression, and nothing
  // else is.
  lemma RegressionIffTipLost(rows: seq<Row>, tip: Tip)
    ensures Incremental(rows, tip).problem == Some(HeadRegression) <==>
              tip.id > 0 && forall i :: 0 <= i < |rows| && rows[i].id == tip.id ==> rows[i].rowHash != tip.hash
  {
  }

  // A walk stopped at its own head sees the same break again.
  lemma {:induction false} WalkResumes(rows: seq<Row>, id: nat, hash: Option<Hash>)
    requires Sorted(rows) && forall i :: 0 <= i < |rows| ==> rows[i].id > id
    ensures var v := WalkRows(rows, id, hash); WalkRows(Newer(rows, v.headId), v.headId, v.headHash) == v
    decreases |rows|
  {
    var v := WalkRows(rows, id, hash);
    if rows == [] {
    } else if LinksTo(rows[0], Expected(hash)) {
      WalkResumes(rows[1..], rows[0].id, rows[0].rowHash);
      HeadIsIntact(rows[1..], rows[0].id, rows[0].rowHash);
      assert Newer(rows, v.headId) == Newer(rows[1..], v.headId);
    } else {
      assert Newer(rows, id) == rows;
    }
  }

  // Patrolling an unchanged table twice: a chain break is reported again, at
  // the same row; a lost tip is reported once, and then the new tip - never
  // verified - is taken on trust.
  lemma SecondPatrol(rows: seq<Row>, tip: Tip)
    requires Sorted(rows) && (tip.id == 0 ==> tip.hash.None?)
    ensures var first := Incremental(rows, tip);
      Incremental(rows, first.tip) ==
        if first.problem == Some(HeadRegression) then Patrolled(first.tip, None) else first
  {
    var first := Incremental(rows, tip);
    if TipStands(rows, tip) {
      BreakResumes(rows, tip);
    } else {
      TrustedTip(rows);
    }
  }

  lemma BreakResumes(rows: seq<Row>, tip: Tip)
    requires Sorted(rows) && TipStands(rows, tip) && (tip.id == 0 ==> tip.hash.None?)
    ensures Incremental(rows, Incremental(rows, tip).tip) == Incremental(rows, tip)
  {
    var n := Newer(rows, tip.id);
    var v := VerifyChain(rows, tip.id, tip.hash);
    NewerIsSorted(rows, tip.id);
    HeadIsIntact(n, tip.id, tip.hash);
    WalkResumes(n, tip.id, tip.hash);
    HeadStands(rows, tip);
    UptoExtends(rows, tip.id, v.headId);
    assert |Upto(rows, v.headId)| == |Upto(rows, tip.id)| + |Upto(n, v.headId)|;
    assert Newer(rows, v.headId) == Newer(n, v.headId);
  }

  lemma TrustedTip(rows: seq<Row>)
    requires Sorted(rows)
    ensures Incremental(rows, LastTip(rows)) == Patrolled(LastTip(rows), None)
  {
    var tip := LastTip(rows);
    CountUptoSplits(rows, tip.id);
    if rows != [] {
      assert rows[|rows| - 1].id == tip.id && rows[|rows| - 1].rowHash == tip.hash;
      CountUptoIs(rows, tip.id, |rows|);
    }
    assert Newer(rows, tip.id) == [];
  }

  // ── runs of appends, tampering and patrols ──────────────────────────────

  // An edit by anyone that leaves the rows up to the remembered tip alone.
  datatype Event = Append(body: string) | Tamper(rows: seq<Row>) | Patrol

  datatype Ledger = Ledger(rows: seq<Row>, nextId: nat, tip: Tip)

  predicate Allowed(l: Ledger, e: Event) {
    e.Tamper? ==>
      && Sorted(e.rows) && Upto(e.rows, l.tip.id) == Upto(l.rows, l.tip.id)
      && forall r <- e.rows :: r.id < l.nextId
  }

  function Happen(l: Ledger, e: Event): Ledger {
    match e
    case Append(body) => l.(rows := l.rows + [Chained(l.rows, l.nextId, body)], nextId := l.nextId + 1)
    case Tamper(rows) => l.(rows := rows)
    case Patrol => l.(tip := Incremental(l.rows, l.tip).tip)
  }

  predicate Tracked(l: Ledger) {
    && Sorted(l.rows) && l.nextId > 0
    && (forall r <- l.rows :: r.id < l.nextId)
    && Intact(l.rows, l.tip) && TipStands(l.rows, l.tip)
    && (l.tip.id == 0 ==> l.tip.hash.None?)
  }

  // Walking on keeps the verified prefix verified.
  lemma {:induction false} HeadIsIntact(rows: seq<Row>, id: nat, hash: Option<Hash>)
    requires Sorted(rows) && forall i :: 0 <= i < |rows| ==> rows[i].id > id
    ensures var v := WalkRows(rows, id, hash);
      && v.headId >= id
      && WalkRows(Upto(rows, v.headId), id, hash) == Verdict(None, v.headId, v.headHash)
      && (v.headId == id ==> v.headHash == hash)
      && (v.headId > id ==> exists i :: 0 <= i < |rows| && rows[i].id == v.headId && rows[i].rowHash == v.headHash)
    decreases |rows|
  {
    var v := WalkRows(rows, id, hash);
    CountUptoSplits(rows, v.headId);
    if rows == [] {
    } else if LinksTo(rows[0], Expected(hash)) {
      var rest := rows[1..];
      HeadIsIntact(rest, rows[0].id, rows[0].rowHash);
      CountUptoSplits(rest, v.headId);
      assert Upto(rows, v.headId)[1..] == Upto(rest, v.headId);
      assert Upto(rows, v.headId)[0] == rows[0];
      if v.headId > rows[0].id {
        var i :| 0 <= i < |rest| && rest[i].id == v.headId && rest[i].rowHash == v.headHash;
        assert rows[i + 1].id == v.headId && rows[i + 1].rowHash == v.headHash;
      } else {
        assert rows[0].id == v.headId && rows[0].rowHash == v.headHash;
      }
    } else {
      assert Upto(rows, id) == [];
    }
  }

  lemma {:induction false} CountUptoIs(rows: seq<Row>, id: nat, n: nat)
    requires Sorted(rows) && n <= |rows|
    requires forall i :: 0 <= i < n ==> rows[i].id <= id
    requires forall i :: n <= i < |rows| ==> rows[i].id > id
    ensures CountUpto(rows, id) == n
  {
    CountUptoSplits(rows, id);
    var m := CountUpto(rows, id);
    assert m < |rows| ==> rows[m].id > id;
    assert n < |rows| ==> rows[n].id > id;
  }

  // The rows up to a later head are the rows up to the tip and then the newer
  // ones up to that head.
  lemma UptoExtends(rows: seq<Row>, id: nat, head: nat)
    requires Sorted(rows) && id <= head
    ensures Upto(rows, head) == Upto(rows, id) + Upto(Newer(rows, id), head)
  {
    var u, n := Upto(rows, id), Newer(rows, id);
    CountUptoSplits(rows, id);
    NewerIsSorted(rows, id);
    CountUptoSplits(n, head);
    forall i | |u| + CountUpto(n, head) <= i < |rows|
      ensures rows[i].id > head
    {
      assert rows[i] == n[i - |u|];
    }
    forall i | 0 <= i < |u| + CountUpto(n, head)
      ensures rows[i].id <= head
    {
      if i >= |u| { assert rows[i] == n[i - |u|]; }
    }
    CountUptoIs(rows, head, |u| + CountUpto(n, head));
  }

  lemma NewerIsSorted(rows: seq<Row>, id: nat)
    requires Sorted(rows)
    ensures Sorted(Newer(rows, id))
    ensures forall i :: 0 <= i < |Newer(rows, id)| ==> Newer(rows, id)[i].id > id
  {
    CountUptoSplits(rows, id);
  }

  // What an incremental walk verified extends a verified prefix.
  lemma HeadExtendsIntact(rows: seq<Row>, tip: Tip)
    requires Sorted(rows) && Intact(rows, tip)
    ensures var v := VerifyChain(rows, tip.id, tip.hash); Intact(rows, Tip(v.headId, v.headHash))
  {
    var v := VerifyChain(rows, tip.id, tip.hash);
    var u, n := Upto(rows, tip.id), Newer(rows, tip.id);
    NewerIsSorted(rows, tip.id);
    HeadIsIntact(n, tip.id, tip.hash);
    UptoExtends(rows, tip.id, v.headId);
    WalkConcat(u, Upto(n, v.headId), 0, None);
  }

  lemma HeadStands(rows: seq<Row>, tip: Tip)
    requires Sorted(rows) && TipStands(rows, tip) && (tip.id == 0 ==> tip.hash.None?)
    ensures var v := VerifyChain(rows, tip.id, tip.hash);
      && TipStands(rows, Tip(v.headId, v.headHash))
      && (v.headId == 0 ==> v.headHash.None?)
  {
    var v := VerifyChain(rows, tip.id, tip.hash);
    var n := Newer(rows, tip.id);
    NewerIsSorted(rows, tip.id);
    HeadIsIntact(n, tip.id, tip.hash);
    hide WalkRows, CountUpto, Sorted;
    if v.headId > tip.id {
      var i :| 0 <= i < |n| && n[i].id == v.headId && n[i].rowHash == v.headHash;
      assert rows[CountUpto(rows, tip.id) + i] == n[i];
    }
  }

  // The tip a patrol moves to is again backed by a verified prefix.
  lemma PatrolKeepsTracked(l: Ledger)
    requires Tracked(l)
    ensures Tracked(Happen(l, Patrol))
  {
    hide Intact, TipStands, VerifyChain, Sorted;
    HeadExtendsIntact(l.rows, l.tip);
    HeadStands(l.rows, l.tip);
  }

  lemma UptoOfAppend(rows: seq<Row>, r: Row, id: nat)
    requires Sorted(rows) && Sorted(rows + [r]) && id < r.id
    ensures Upto(rows + [r], id) == Upto(rows, id)
  {
    CountUptoSplits(rows, id);
    CountUptoIs(rows + [r], id, CountUpto(rows, id));
  }

  lemma IntactIsAboutUpto(a: seq<Row>, b: seq<Row>, tip: Tip)
    requires Intact(a, tip) && Upto(a, tip.id) == Upto(b, tip.id)
    ensures Intact(b, tip)
  {
  }

  lemma TipStandsOnAppend(rows: seq<Row>, r: Row, tip: Tip)
    requires TipStands(rows, tip)
    ensures TipStands(rows + [r], tip)
  {
    if tip.id > 0 {
      var i :| 0 <= i < |rows| && rows[i].id == tip.id && rows[i].rowHash == tip.hash;
      assert (rows + [r])[i] == rows[i];
    }
  }

  lemma AppendKeepsTracked(l: Ledger, body: string)
    requires Tracked(l)
    ensures Tracked(Happen(l, Append(body)))
  {
    hide Intact, TipStands, Upto, ChainHead;
    var r := Chained(l.rows, l.nextId, body);
    assert forall i :: 0 <= i < |l.rows| ==> l.rows[i] in l.rows;
    assert Sorted(l.rows + [r]);
    TipBelowNext(l);
    UptoOfAppend(l.rows, r, l.tip.id);
    TipStandsOnAppend(l.rows, r, l.tip);
    IntactIsAboutUpto(l.rows, l.rows + [r], l.tip);
  }

  lemma TipBelowNext(l: Ledger)
    requires Tracked(l)
    ensures l.tip.id < l.nextId
  {
    if l.tip.id > 0 {
      var i :| 0 <= i < |l.rows| && l.rows[i].id == l.tip.id && l.rows[i].rowHash == l.tip.hash;
      assert l.rows[i] in l.rows;
    }
  }

  lemma TamperKeepsTracked(l: Ledger, rows: seq<Row>)
    requires Tracked(l) && Allowed(l, Tamper(rows))
    ensures Tracked(Happen(l, Tamper(rows)))
  {
    if l.tip.id > 0 {
      UptoEndsAtTip(l.rows, l.tip);
      var u := Upto(rows, l.tip.id);
      assert rows[|u| - 1] == u[|u| - 1];
    }
  }

  predicate AllAllowed(l: Ledger, es: seq<Event>)
    decreases |es|
  {
    es == [] || (Allowed(l, es[0]) && AllAllowed(Happen(l, es[0]), es[1..]))
  }

  function HappenAll(l: Ledger, es: seq<Event>): Ledger
    decreases |es|
  {
    if es == [] then l else HappenAll(Happen(l, es[0]), es[1..])
  }

  const NEW_LEDGER := Ledger([], 1, NO_TIP)

  lemma {:induction false} RunKeepsTracked(l: Ledger, es: seq<Event>)
    requires Tracked(l) && AllAllowed(l, es)
    ensures Tracked(HappenAll(l, es))
    decreases |es|
  {
    hide Tracked, Allowed, Happen;
    if es != [] {
      match es[0] {
        case Append(body) => AppendKeepsTracked(l, body);
        case Tamper(rows) => TamperKeepsTracked(l, rows);
        case Patrol => PatrolKeepsTracked(l);
      }
      RunKeepsTracked(Happen(l, es[0]), es[1..]);
    }
  }

  // Over any run of appends, patrols and edits above the remembered tip, the
  // next incremental patrol reports a break exactly when a walk from row 1
  // does, and at the same row.
  lemma IncrementalRefinesFull(es: seq<Event>)
    requires AllAllowed(NEW_LEDGER, es)
    ensures var l := HappenAll(NEW_LEDGER, es);
      Incremental(l.rows, l.tip).problem == Full(l.rows)
  {
    assert Tracked(NEW_LEDGER);
    RunKeepsTracked(NEW_LEDGER, es);
    var l := HappenAll(NEW_LEDGER, es);
    AgreesIffPrefixVerifies(l.rows, l.tip);
  }

  // ── honest ledgers ──────────────────────────────────────────────────────

  lemma {:induction false} GoodWalkHead(rows: seq<Row>)
    requires WalkRows(rows, 0, None).broken.None?
    ensures ChainHead(rows) == Expected(WalkRows(rows, 0, None).headHash)
  {
    if rows != [] {
      GoodWalkEnds(rows, 0, None);
      LastHashPresent(rows, 0, None);
    }
  }

  lemma {:induction false} LastHashPresent(rows: seq<Row>, id: nat, hash: Option<Hash>)
    requires rows != [] && WalkRows(rows, id, hash).broken.None?
    ensures rows[|rows| - 1].rowHash.Some?
    decreases |rows|
  {
    if |rows| > 1 {
      LastHashPresent(rows[1..], rows[0].id, rows[0].rowHash);
    }
  }

  lemma AppendStaysGood(rows: seq<Row>, id: nat, body: string)
    requires WalkRows(rows, 0, None).broken.None?
    ensures WalkRows(rows + [Chained(rows, id, body)], 0, None).broken.None?
  {
    GoodWalkHead(rows);
    WalkConcat(rows, [Chained(rows, id, body)], 0, None);
  }

  lemma {:induction false} HonestRunIsGood(l: Ledger, es: seq<Event>)
    requires WalkRows(l.rows, 0, None).broken.None?
    requires forall e <- es :: !e.Tamper?
    ensures WalkRows(HappenAll(l, es).rows, 0, None).broken.None?
    decreases |es|
  {
    if es != [] {
      assert es[0] in es;
      if es[0].Append? { AppendStaysGood(l.rows, l.nextId, es[0].body); }
      HonestRunIsGood(Happen(l, es[0]), es[1..]);
    }
  }

  lemma {:induction false} HonestIsAllowed(l: Ledger, es: seq<Event>)
    requires forall e <- es :: !e.Tamper?
    ensures AllAllowed(l, es)
    decreases |es|
  {
    if es != [] {
      assert es[0] in es;
      HonestIsAllowed(Happen(l, es[0]), es[1..]);
    }
  }

  // Appends and patrols alone never raise an alarm of either kind.
  lemma HonestNeverAlarms(es: seq<Event>)
    requires forall e <- es :: !e.Tamper?
    ensures var l := HappenAll(NEW_LEDGER, es);
      Incremental(l.rows, l.tip).problem == None && Full(l.rows) == None
  {
    HonestIsAllowed(NEW_LEDGER, es);
    HonestRunIsGood(NEW_LEDGER, es);
    IncrementalRefinesFull(es);
    assert Tracked(NEW_LEDGER);
    RunKeepsTracked(NEW_LEDGER, es);
    FullFrom0(HappenAll(NEW_LEDGER, es).rows);
  }

  // ── tamper evidence ─────────────────────────────────────────────────────

  // Editing the business columns of one row of a good ledger, hashes left as
  // they were, breaks the full walk at exactly that row.
  lemma {:induction false} EditBreaksThere(rows: seq<Row>, i: nat, body: string, id: nat, hash: Option<Hash>)
    requires i < |rows| && body != rows[i].body
    requires WalkRows(rows, id, hash).broken.None?
    ensures WalkRows(rows[i := rows[i].(body := body)], id, hash).broken == Some(rows[i].id)
    decreases |rows|
  {
    var edited := rows[i := rows[i].(body := body)];
    if i > 0 {
      assert edited[1..] == rows[1..][i - 1 := rows[1..][i - 1].(body := body)];
      EditBreaksThere(rows[1..], i - 1, body, rows[0].id, rows[0].rowHash);
    }
  }

  // The head hash pins the whole history: two ledgers that verify and end in
  // the same hash are the same ledger, row for row.
  lemma {:induction false} HeadHashPinsHistory(a: seq<Row>, b: seq<Row>)
    requires WalkRows(a, 0, None).broken.None? && WalkRows(b, 0, None).broken.None?
    requires Expected(WalkRows(a, 0, None).headHash) == Expected(WalkRows(b, 0, None).headHash)
    ensures a == b
  {
    if a != [] {
      LastLink(a);
      if b != [] {
        LastLink(b);
        HeadHashPinsHistory(a[..|a| - 1], b[..|b| - 1]);
        assert a == a[..|a| - 1] + [a[|a| - 1]];
        assert b == b[..|b| - 1] + [b[|b| - 1]];
      }
    } else if b != [] {
      LastLink(b);
    }
  }

  lemma LastLink(rows: seq<Row>)
    requires rows != [] && WalkRows(rows, 0, None).broken.None?
    ensures var front, last := rows[..|rows| - 1], rows[|rows| - 1];
      && WalkRows(front, 0, None).broken.None?
      && LinksTo(last, Expected(WalkRows(front, 0, None).headHash))
      && WalkRows(rows, 0, None).headHash == last.rowHash
  {
    var front, last := rows[..|rows| - 1], rows[|rows| - 1];
    assert rows == front + [last];
    WalkConcat(front, [last], 0, None);
  }
}
