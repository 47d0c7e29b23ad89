/**
 Task registration (state/registration.py): resolving the verdict legs and the
 approver from configuration, one database transaction, then the active-room
 pointer, then the removal of the legacy pointer.
 */
module Registration {
  import opened Basics
  import opened Fsm

  datatype Agents = Agents(
    requiredVerdicts: Option<seq<string>>, verifyCommand: bool, verifiers: nat,
    allowUngated: bool, mergeApproval: string)

  datatype Error =
    | NoOwner | NoRoom | UngatedNotAllowed | UnknownLeg(leg: string)
    | VerifyUnexecutable | AcceptanceUnexecutable
    | UnapprovedMerges | EmptyHandle | UnknownApprover

  datatype Resolved<+T> = Ok(value: T) | Err(error: Error)

  // The legs before validation.
  function ConfiguredLegs(a: Agents): seq<string> {
    match a.requiredVerdicts
    case None =>
      (if a.verifyCommand then DEFAULT_REQUIRED else ["review"])
      + (if a.verifiers > 0 then ["verify_acceptance"] else [])
    case Some(legs) => legs
  }

  function FirstUnknown(legs: seq<string>): Option<string> {
    if legs == [] then None
    else if legs[0] !in KNOWN_LEGS then Some(legs[0])
    else FirstUnknown(legs[1..])
  }

  function ResolveRequiredVerdicts(a: Agents): Resolved<seq<string>> {
    var legs := ConfiguredLegs(a);
    if a.requiredVerdicts == Some([]) && !a.allowUngated then Err(UngatedNotAllowed)
    else if FirstUnknown(legs).Some? then Err(UnknownLeg(FirstUnknown(legs).value))
    else if "verify" in legs && !a.verifyCommand then Err(VerifyUnexecutable)
    else if "verify_acceptance" in legs && a.verifiers == 0 then Err(AcceptanceUnexecutable)
    else Ok(legs)
  }

  const HUMAN := "human:"

  function ResolveMergeApproval(a: Agents): Resolved<string> {
    var v := a.mergeApproval;
    if v == "owner" then Ok(v)
    else if v == "none" then Err(UnapprovedMerges)
    else if HUMAN <= v then (if |v| == |HUMAN| then Err(EmptyHandle) else Ok(v))
    else Err(UnknownApprover)
  }

  // Some actor can render this verdict under this configuration.
  predicate Executable(a: Agents, leg: string) {
    || leg == "review"
    || (leg == "verify" && a.verifyCommand)
    || (leg == "verify_acceptance" && a.verifiers > 0)
  }

  lemma {:induction false} FirstUnknownIff(legs: seq<string>)
    ensures FirstUnknown(legs).None? <==> forall leg <- legs :: leg in KNOWN_LEGS
    ensures FirstUnknown(legs).Some? ==> FirstUnknown(legs).value in legs && FirstUnknown(legs).value !in KNOWN_LEGS
  {
    if legs != [] {
      FirstUnknownIff(legs[1..]);
      assert legs == [legs[0]] + legs[1..];
    }
  }

  // Registration succeeds exactly when every leg is known and can be rendered,
  // and merging without verdicts is only ever an explicit double opt-in.
  lemma ResolvesIffExecutable(a: Agents)
    ensures ResolveRequiredVerdicts(a).Ok? <==>
              (forall leg <- ConfiguredLegs(a) :: Executable(a, leg))
              && (ConfiguredLegs(a) == [] ==> a.requiredVerdicts == Some([]) && a.allowUngated)
    ensures ResolveRequiredVerdicts(a).Ok? ==>
              var legs := ResolveRequiredVerdicts(a).value;
              && legs == ConfiguredLegs(a)
              && (forall leg <- legs :: leg in KNOWN_LEGS)
              && (a.requiredVerdicts.None? ==> "review" in legs)
              && (a.requiredVerdicts.None? ==> ("verify" in legs <==> a.verifyCommand))
              && (a.requiredVerdicts.None? ==> ("verify_acceptance" in legs <==> a.verifiers > 0))
  {
    var legs := ConfiguredLegs(a);
    FirstUnknownIff(legs);
    if a.requiredVerdicts.None? {
      assert legs == (if a.verifyCommand then ["verify", "review"] else ["review"])
                     + (if a.verifiers > 0 then ["verify_acceptance"] else []);
      assert legs[if a.verifyCommand then 1 else 0] == "review";
      assert a.verifyCommand ==> legs[0] == "verify";
      assert a.verifiers > 0 ==> legs[|legs| - 1] == "verify_acceptance";
    }
    if forall leg <- legs :: Executable(a, leg) {
      forall leg | leg in legs
        ensures leg in KNOWN_LEGS
      {
      }
      if "verify" in legs { assert Executable(a, "verify"); }
      if "verify_acceptance" in legs { assert Executable(a, "verify_acceptance"); }
    }
  }

  // Why a configuration's legs are refused: the first of these that holds.
  lemma LegsRefusedAs(a: Agents)
    ensures var got, legs := ResolveRequiredVerdicts(a), ConfiguredLegs(a);
      var ungated, known := legs == [] && !a.allowUngated, forall leg <- legs :: leg in KNOWN_LEGS;
      && (got == Err(UngatedNotAllowed) <==> ungated)
      && ((exists leg :: got == Err(UnknownLeg(leg))) <==> !known)
      && (forall leg :: got == Err(UnknownLeg(leg)) ==> leg in legs && leg !in KNOWN_LEGS)
      && (got == Err(VerifyUnexecutable) <==> known && "verify" in legs && !a.verifyCommand)
      && (got == Err(AcceptanceUnexecutable) <==>
            known && !("verify" in legs && !a.verifyCommand) && "verify_acceptance" in legs && a.verifiers == 0)
  {
    var legs := ConfiguredLegs(a);
    FirstUnknownIff(legs);
    if a.requiredVerdicts.None? { assert legs != []; }
    if FirstUnknown(legs).Some? {
      assert ResolveRequiredVerdicts(a) == Err(UnknownLeg(FirstUnknown(legs).value));
    }
  }

  // Who may approve merges: the owner, or a named human - recorded as given.
  lemma ApproverIff(a: Agents)
    ensures var got, v := ResolveMergeApproval(a), a.mergeApproval;
      && (got.Ok? <==> v == "owner" || exists handle :: handle != "" && v == HUMAN + handle)
      && (got.Ok? ==> got.value == v)
      && (got == Err(UnapprovedMerges) <==> v == "none")
      && (got == Err(EmptyHandle) <==> v == HUMAN)
      && (got.Err? ==> got.error in {UnapprovedMerges, EmptyHandle, UnknownApprover})
  {
    var v := a.mergeApproval;
    assert "none"[0] != HUMAN[0] && "owner"[0] != HUMAN[0];
    if HUMAN <= v && |v| > |HUMAN| {
      assert v == HUMAN + v[|HUMAN|..];
    }
    if handle :| handle != "" && v == HUMAN + handle {
      assert v[0] == HUMAN[0] && HUMAN <= v;
    }
  }

  // ── the durable steps ───────────────────────────────────────────────────

  // `pointer` and `legacy` hold the stripped file contents; "" when missing.
  datatype Home = Home(tasks: map<string, TaskRow>, pointer: string, legacy: string)

  datatype Request = Request(room: string, description: string, owner: string, agents: Agents)

  datatype Kind = Registered | ReRegistered | SupersededOther

  datatype Report = Report(kind: Kind, superseded: Option<string>)

  function ReadPointer(h: Home): string {
    if h.pointer != "" then h.pointer else h.legacy
  }

  function Validate(r: Request): Resolved<TaskRow> {
    if r.owner == "" then Err(NoOwner)
    else if r.room == "" then Err(NoRoom)
    else
      match ResolveRequiredVerdicts(r.agents)
      case Err(e) => Err(e)
      case Ok(legs) =>
        match ResolveMergeApproval(r.agents)
        case Err(e) => Err(e)
        case Ok(approver) => Ok(TaskRow(r.description, Active, r.owner, Some(legs), Some(approver)))
  }

  // A request is valid exactly when it names an owner and a room, its legs can
  // be rendered and its approver is one; the row it asks for is as configured.
  lemma ValidIff(r: Request)
    ensures var got := Validate(r);
      && (got.Ok? <==> r.owner != "" && r.room != ""
                       && ResolveRequiredVerdicts(r.agents).Ok? && ResolveMergeApproval(r.agents).Ok?)
      && (got.Ok? ==> got.value == TaskRow(r.description, Active, r.owner,
                        Some(ConfiguredLegs(r.agents)), Some(r.agents.mergeApproval)))
      && (got == Err(NoOwner) <==> r.owner == "") && (got == Err(NoRoom) <==> r.owner != "" && r.room == "")
      && (ResolveRequiredVerdicts(r.agents).Err? && r.owner != "" && r.room != "" ==>
            got == Err(ResolveRequiredVerdicts(r.agents).error))
  {
    ResolvesIffExecutable(r.agents);
    ApproverIff(r.agents);
    LegsRefusedAs(r.agents);
  }

  // The room the room file points at, if any.
  function Named(h: Home): set<string> {
    if ReadPointer(h) == "" then {} else {ReadPointer(h)}
  }

  // The room to supersede: named by the pointer, different, and with a row.
  function ToSupersede(h: Home, room: string): Option<string> {
    var p := ReadPointer(h);
    if p != "" && p != room && p in h.tasks then Some(p) else None
  }

  // register_task_atomic: supersede (only an active row) and insert or update.
  function WriteRows(tasks: map<string, TaskRow>, room: string, newRow: TaskRow, prior: Option<string>)
    : map<string, TaskRow>
  {
    var closed :=
      if prior.Some? && prior.value in tasks && tasks[prior.value].status == Active
      then tasks[prior.value := tasks[prior.value].(status := Superseded)] else tasks;
    closed[room := if room in closed then newRow.(description := closed[room].description) else newRow]
  }

  // The home after the first `n` durable effects of a valid registration.
  function Effects(h: Home, room: string, newRow: TaskRow, n: nat): Home {
    Home(if n >= 1 then WriteRows(h.tasks, room, newRow, ToSupersede(h, room)) else h.tasks,
         if n >= 2 then room else h.pointer,
         if n >= 3 then "" else h.legacy)
  }

  // The home a call leaves when it is cut off after `n` effects.
  function CutOff(h: Home, r: Request, n: nat): Home {
    match Validate(r)
    case Err(_) => h
    case Ok(newRow) => Effects(h, r.room, newRow, n)
  }

  function Complete(h: Home, r: Request): Home {
    CutOff(h, r, 3)
  }

  class Workspace {
    var tasks: map<string, TaskRow>
    var pointer: string
    var legacy: string

    constructor (h: Home)
      ensures View() == h
    {
      tasks, pointer, legacy := h.tasks, h.pointer, h.legacy;
    }

    function View(): Home
      reads this
    {
      Home(tasks, pointer, legacy)
    }

    method ReadRoomPointer() returns (room: Option<string>)
      ensures room == if ReadPointer(View()) == "" then None else Some(ReadPointer(View()))
    {
      if pointer != "" {
        return Some(pointer);
      }
      return if legacy != "" then Some(legacy) else None;
    }

    method RegisterTaskAtomic(room: string, newRow: TaskRow, supersede: Option<string>) returns (updated: bool)
      modifies this`tasks
      ensures tasks == WriteRows(old(tasks), room, newRow, supersede)
      ensures updated <==> room in old(tasks)
    {
      if supersede.Some? {
        if supersede.value in tasks && tasks[supersede.value].status == Active {
          tasks := tasks[supersede.value := tasks[supersede.value].(status := Superseded)];
        }
      }
      updated := room in tasks;
      if updated {
        tasks := tasks[room := tasks[room].(owner := newRow.owner, required := newRow.required,
                                            approver := newRow.approver, status := newRow.status)];
      } else {
        tasks := tasks[room := newRow];
      }
    }

    // Row first: the pointer is written only after the rows are committed.
    method RegisterTask(r: Request) returns (out: Resolved<Report>)
      modifies this
      ensures View() == Complete(old(View()), r)
      ensures if out.Ok? then Validate(r).Ok? else Validate(r) == Err(out.error)
      ensures out.Ok? ==>
        && out.value.superseded == ToSupersede(old(View()), r.room)
        && out.value.kind == (if out.value.superseded.Some? then SupersededOther
                              else if r.room in old(tasks) then ReRegistered else Registered)
    {
      if r.owner == "" {
        return Err(NoOwner);
      }
      if r.room == "" {
        return Err(NoRoom);
      }
      var legs := ResolveRequiredVerdicts(r.agents);
      if legs.Err? {
        return Err(legs.error);
      }
      var approver := ResolveMergeApproval(r.agents);
      if approver.Err? {
        return Err(approver.error);
      }
      var current := ReadRoomPointer();
      var supersede: Option<string> := None;
      if current.Some? && current.value != r.room {
        if current.value in tasks {
          supersede := current;
        }
      }
      var newRow := TaskRow(r.description, Active, r.owner, Some(legs.value), Some(approver.value));
      var updated := RegisterTaskAtomic(r.room, newRow, supersede);
      pointer := r.room;
      legacy := "";
      var kind := if supersede.Some? then SupersededOther else if updated then ReRegistered else Registered;
      return Ok(Report(kind, supersede));
    }
  }

  // ── crash safety ────────────────────────────────────────────────────────

  // However far a call got, the pointer it leaves is the old one or names a row.
  lemma NoPointerWithoutRow(h: Home, r: Request, n: nat)
    ensures var cut := CutOff(h, r, n);
      cut.pointer == h.pointer || cut.pointer in cut.tasks
    ensures h.pointer in h.tasks ==> CutOff(h, r, n).pointer in CutOff(h, r, n).tasks
  {
  }

  lemma RerunRepairs(h: Home, r: Request, n: nat)
    ensures Complete(CutOff(h, r, n), r) == Complete(h, r)
  {
    if Validate(r).Ok? {
      var newRow, prior := Validate(r).value, ToSupersede(h, r.room);
      var cut := CutOff(h, r, n);
      if n >= 1 {
        assert ToSupersede(cut, r.room) == if n >= 2 then None else prior;
        var rows := WriteRows(h.tasks, r.room, newRow, prior);
        assert WriteRows(rows, r.room, newRow, if n >= 2 then None else prior) == rows;
      } else {
        assert cut == h;
      }
    }
  }

  // Calls cut off after the given numbers of effects, then one complete call.
  function Retries(h: Home, r: Request, cuts: seq<nat>): Home
    decreases |cuts|
  {
    if cuts == [] then Complete(h, r) else Retries(CutOff(h, r, cuts[0]), r, cuts[1..])
  }

  // From any home - dangling or legacy pointer included - retrying a cut-off
  // registration ends in the very rows and pointers of one undisturbed call.
  lemma {:induction false} RetriesConverge(h: Home, r: Request, cuts: seq<nat>)
    ensures Retries(h, r, cuts) == Complete(h, r)
    decreases |cuts|
  {
    if cuts != [] {
      RetriesConverge(CutOff(h, r, cuts[0]), r, cuts[1..]);
      RerunRepairs(h, r, cuts[0]);
    }
  }

  // What a completed registration establishes, read off the home alone.
  lemma CompleteEstablishes(h: Home, r: Request)
    requires Validate(r).Ok?
    ensures var end := Complete(h, r);
      && ReadPointer(end) == r.room && r.room in end.tasks && end.legacy == ""
      && end.tasks[r.room].status == Active && end.tasks[r.room].owner == r.owner
      && end.tasks[r.room].required == Some(ConfiguredLegs(r.agents))
      && end.tasks[r.room].approver == Some(r.agents.mergeApproval)
      && end.tasks[r.room].description ==
           (if r.room in h.tasks then h.tasks[r.room].description else r.description)
      && (forall t :: t in h.tasks && t != r.room ==>
            && t in end.tasks
            && end.tasks[t] == if t in Named(h) && h.tasks[t].status == Active
                               then h.tasks[t].(status := Superseded) else h.tasks[t])
      && end.tasks.Keys == h.tasks.Keys + {r.room}
  {
    ValidIff(r);
  }

  // ── one active task ─────────────────────────────────────────────────────

  predicate OnlyActive(h: Home, rooms: set<string>) {
    forall t :: t in h.tasks && h.tasks[t].status == Active ==> t in rooms
  }

  // A registration leaves its room as the only active task exactly when no
  // active task but the one in the room file stood beside it.
  lemma OneActiveIff(h: Home, r: Request)
    requires Validate(r).Ok?
    ensures OnlyActive(Complete(h, r), {r.room}) <==> OnlyActive(h, {r.room} + Named(h))
  {
    CompleteEstablishes(h, r);
    var end := Complete(h, r);
    if OnlyActive(end, {r.room}) {
      forall t | t in h.tasks && h.tasks[t].status == Active
        ensures t in {r.room} + Named(h)
      {
        if t != r.room { assert end.tasks[t].status != Active; }
      }
    }
    if OnlyActive(h, {r.room} + Named(h)) {
      forall t | t in end.tasks && end.tasks[t].status == Active
        ensures t in {r.room}
      {
        assert t in h.tasks + map[r.room := end.tasks[r.room]];
      }
    }
  }

  // From a home where only the pointer's task is active, complete calls keep
  // exactly one active task.
  lemma CompleteKeepsOneActive(h: Home, r: Request)
    requires Validate(r).Ok? && OnlyActive(h, Named(h))
    ensures OnlyActive(Complete(h, r), Named(Complete(h, r)))
  {
    CompleteEstablishes(h, r);
    OneActiveIff(h, r);
  }

  // Cut off between rows and pointer, then followed by a registration of some
  // third room, the middle task stays active beside the new one.
  lemma CutOffThenThirdRoom(a: TaskRow, r: Request, other: Request)
    requires a.status == Active
    requires Validate(r).Ok? && Validate(other).Ok?
    requires r.room != other.room && r.room != "a" && other.room != "a"
    ensures var h := Home(map["a" := a], "a", "");
      var end := Complete(CutOff(h, r, 1), other);
      && OnlyActive(h, Named(h))
      && r.room in end.tasks && end.tasks[r.room].status == Active
      && other.room in end.tasks && end.tasks[other.room].status == Active
  {
    var h := Home(map["a" := a], "a", "");
    var cut := CutOff(h, r, 1);
    CompleteEstablishes(cut, other);
    assert ReadPointer(cut) == "a";
  }
}
