/**
 What a listing of the local memory store (module MemoryLog) returns: which
 records each filter lets through, and which of those make up the page.
 */
module MemoryPages {
  import opened Basics
  import opened MemoryLog

  // ── which records match ─────────────────────────────────────────────────

  // `part` stands somewhere in `text`.
  ghost predicate Occurs(text: string, part: string) {
    exists before, after :: text == before + part + after
  }

  lemma ContainsIff(text: string, part: string)
    ensures Contains(text, part) <==> Occurs(text, part)
  {
    if Contains(text, part) {
      var i :| 0 <= i <= |text| && part <= text[i..];
      assert text == text[..i] + part + text[i..][|part|..];
    }
    if Occurs(text, part) {
      var before, after :| text == before + part + after;
      assert text[|before|..] == part + after;
      assert part <= text[|before|..];
    }
  }

  // `line` is what stands before the first newline.
  predicate Leads(line: string, text: string) {
    '\n' !in line && (line == text || (line + "\n") <= text)
  }

  lemma {:induction false} FirstLineLeads(text: string)
    ensures Leads(FirstLine(text), text)
    ensures forall line :: Leads(line, text) ==> line == FirstLine(text)
    decreases |text|
  {
    if text == "" {
    } else if text[0] == '\n' {
      forall line | Leads(line, text)
        ensures line == ""
      {
        LeadsFirst(line, text);
      }
    } else {
      FirstLineLeads(text[1..]);
      assert Leads(FirstLine(text), text) by { assert text == [text[0]] + text[1..]; }
      forall line | Leads(line, text)
        ensures line == FirstLine(text)
      {
        RestLeads(line, text);
      }
    }
  }

  lemma LeadsFirst(line: string, text: string)
    requires text != "" && Leads(line, text)
    ensures line == "" <==> text[0] == '\n'
    ensures line != "" ==> line[0] == text[0]
  {
    if line != text { assert (line + "\n")[0] == text[0]; }
    assert line != "" ==> line[0] in line;
  }

  lemma RestLeads(line: string, text: string)
    requires text != "" && text[0] != '\n' && Leads(line, text)
    ensures line != "" && line[0] == text[0] && Leads(line[1..], text[1..])
  {
    LeadsFirst(line, text);
    if line != text {
      var whole := line + "\n";
      assert whole[0] == text[0] && whole[1..] == line[1..] + "\n";
      assert whole[1..] == text[1..][..|whole| - 1];
    }
  }

  // A record matches exactly when its status is the one asked for - active when
  // none is, any for "all" - each field asked for is equal, and the text asked
  // for occurs, case aside, on the first line of its content.
  lemma MatchesIff(r: Rec, q: Query, lower: string -> string, line: string)
    requires Leads(line, r.content)
    ensures Matches(r, q, lower) <==>
      && (q.status == Some("all")
          || (q.status in {None, Some("")} && r.status == "active")
          || (q.status.Some? && q.status.value != "" && r.status == q.status.value))
      && (q.subject == None || q.subject == r.subject)
      && (q.scope == None || q.scope == Some(r.scope))
      && (q.system == None || q.system == Some(r.system))
      && (q.kind == None || q.kind == Some(r.kind))
      && (q.segment == None || q.segment == Some(r.segment))
      && (q.content in {None, Some("")} || Occurs(lower(line), lower(q.content.value)))
  {
    FirstLineLeads(r.content);
    if q.content.Some? { ContainsIff(lower(line), lower(q.content.value)); }
    hide Contains, Occurs, FirstLine, Leads;
  }

  // ── which matches make up the page ──────────────────────────────────────

  // The indices of the matching records, in file order.
  predicate Positions(pos: seq<nat>, rs: seq<Rec>, q: Query, lower: string -> string) {
    && (forall i, j :: 0 <= i < j < |pos| ==> pos[i] < pos[j])
    && (forall p <- pos :: p < |rs| && Matches(rs[p], q, lower))
    && (forall p: nat :: p < |rs| && Matches(rs[p], q, lower) ==> p in pos)
  }

  lemma {:induction false} MatchingAt(rs: seq<Rec>, q: Query, lower: string -> string) returns (pos: seq<nat>)
    ensures Positions(pos, rs, q, lower) && |Matching(rs, q, lower)| == |pos|
    ensures forall j :: 0 <= j < |pos| ==> pos[j] < |rs| && Matching(rs, q, lower)[j] == rs[pos[j]]
    decreases |rs|
  {
    if rs == [] {
      pos := [];
    } else {
      var n := |rs| - 1;
      var front := MatchingAt(rs[..n], q, lower);
      hide Matches;
      pos := front + if Matches(rs[n], q, lower) then [n] else [];
      forall p: nat | p < |rs| && Matches(rs[p], q, lower)
        ensures p in pos
      {
        if p < n { assert rs[..n][p] == rs[p] && p in front; }
      }
      forall p | p in pos
        ensures p < |rs| && Matches(rs[p], q, lower)
      {
        if p in front { assert rs[..n][p] == rs[p]; }
      }
    }
  }

  // How many matches a page of this size holds out of n: all of them for zero, at
  // most the size asked for, and for a negative size all but so many.
  function PageLength(n: nat, pageSize: int): nat {
    if 0 < pageSize < n then pageSize
    else if pageSize >= 0 then n
    else if -pageSize < n then n + pageSize else 0
  }

  // The page is the newest matches, in the order they stand in the file.
  lemma PageIsNewest(rs: seq<Rec>, q: Query, lower: string -> string, pageSize: int)
    ensures var page := Trailing(Matching(rs, q, lower), pageSize);
      exists pos :: Positions(pos, rs, q, lower)
        && |page| == PageLength(|pos|, pageSize)
        && forall j :: 0 <= j < |page| ==>
             var p := pos[|pos| - |page| + j]; p < |rs| && page[j] == rs[p]
  {
    hide Matches, Positions;
    var pos := MatchingAt(rs, q, lower);
    var ms, page := Matching(rs, q, lower), Trailing(Matching(rs, q, lower), pageSize);
    assert page == ms[|ms| - |page|..];
    assert forall j :: 0 <= j < |page| ==> page[j] == ms[|ms| - |page| + j];
  }

  // ── what archiving writes ───────────────────────────────────────────────

  lemma FoundIff(rs: seq<Rec>, id: string)
    ensures Find(rs, id) < |rs| <==> exists r <- rs :: r.id == id && r.status != "archived"
  {
    hide Find;
    if Find(rs, id) < |rs| {
      assert rs[Find(rs, id)] in rs;
    }
    if r :| r in rs && r.id == id && r.status != "archived" {
      var j :| 0 <= j < |rs| && rs[j] == r;
      assert Hit(rs[j], id);
    }
  }

  // Archiving marks the first live record with the id - its status and the time,
  // nothing else - and no other; with no such record it changes nothing at all.
  lemma ArchiveMarks(rs: seq<Rec>, id: string, stamp: int)
    ensures (forall r <- rs :: r.id == id ==> r.status == "archived") ==> Apply(rs, Archive(id, stamp)) == rs
    ensures (exists r <- rs :: r.id == id && r.status != "archived") ==>
      exists i :: 0 <= i < |rs| && rs[i].id == id && rs[i].status != "archived"
        && (forall j :: 0 <= j < i && rs[j].id == id ==> rs[j].status == "archived")
        && RetireFirst(rs, id, stamp) == rs[i := rs[i].(status := "archived", archivedAt := Some(stamp))]
        && Apply(rs, Archive(id, stamp)) == Keep(RetireFirst(rs, id, stamp), 50)
  {
    var i := Find(rs, id);
    FoundIff(rs, id);
    hide Find, Keep;
    if i < |rs| {
      assert rs[i] in rs && rs[i].id == id && rs[i].status != "archived";
    }
  }
}
