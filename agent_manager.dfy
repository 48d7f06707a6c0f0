/** The agent table and its memories (app/core/agent_manager.py over the
    tables of app/models_agents.py). The database is the store's two lists of
    rows, in table order; the clock, the generated ids and the tool registry
    and runner are parameters. A commit the table's constraints reject (the
    primary key, the unique agent name) raises IntegrityError and leaves the
    rows as they were. */
module AgentManager {
  import opened PyText
  import opened JsonValue
  import opened Oracles
  import opened AgentModels

  /** A row of the agents table, with its columns as stored. */
  datatype AgentRow = AgentRow(
    id: string, name: string, description: Option<string>, emoji: Option<string>,
    visibility: string, teachable: bool, tools: Option<seq<string>>, status: string,
    createdAt: int, updatedAt: int)

  /** A row of the agent_memories table. */
  datatype MemoryRow = MemoryRow(
    memoryId: string, agentId: string, scope: string, userId: Option<string>,
    tags: Option<seq<string>>, content: string, createdAt: int)

  /** `MemoryRecord`. */
  datatype MemoryRecord = MemoryRecord(
    memoryId: string, scope: Scope, userId: Option<string>, tags: seq<string>, content: string, createdAt: int)

  /** `_to_agent_schema(row)`; None where the schema's validation fails. */
  function Schema(row: AgentRow): Option<Agent> {
    ToAgent(row.id, row.name, row.description, row.emoji, row.visibility, row.teachable,
            row.tools, row.status, row.createdAt, row.updatedAt)
  }

  /** `_to_memory_schema(m)`; None where the scope is not one of the two
      literals. */
  function MemorySchema(m: MemoryRow): (r: Option<MemoryRecord>)
    ensures r.Some? <==> ParseScope(m.scope).Some?
    ensures r.Some? ==> r.value.memoryId == m.memoryId && r.value.content == m.content && ScopeText(r.value.scope) == m.scope
  {
    match ParseScope(m.scope)
    case None => None
    case Some(sc) => Some(MemoryRecord(m.memoryId, sc, m.userId, if m.tags.Some? then m.tags.value else [], m.content, m.createdAt))
  }

  // ------------------------------------------------------------- tools

  /** The tools of `tools` that are in `available`, in order. */
  function KeepAvailable(tools: seq<string>, available: set<string>): (r: seq<string>)
    ensures |r| <= |tools|
    ensures forall t :: t in r <==> t in tools && t in available
    decreases |tools|
  {
    if tools == [] then []
    else
      assert forall t :: t in tools <==> t == tools[0] || t in tools[1..] by {
        assert tools == [tools[0]] + tools[1..];
      }
      (if tools[0] in available then [tools[0]] else []) + KeepAvailable(tools[1..], available)
  }

  /** `_validate_tools(tools)` with the registry's tool keys as `available`
      (empty when the registry cannot be imported or read): no tools give [];
      an empty registry lets every tool through; otherwise only registered
      tools are kept, in order. */
  function ValidateTools(tools: Option<seq<string>>, available: set<string>): (r: seq<string>)
    ensures tools.None? || tools.value == [] ==> r == []
    ensures tools.Some? && available == {} ==> r == tools.value
    ensures tools.Some? && available != {} ==> |r| <= |tools.value| && forall t :: t in r <==> t in tools.value && t in available
  {
    if tools.None? || tools.value == [] then []
    else if available == {} then tools.value
    else KeepAvailable(tools.value, available)
  }

  /** Keeping only registered tools keeps them in their order: a tool list
      that is all registered passes unchanged. */
  lemma {:induction false} KeepAllAvailable(tools: seq<string>, available: set<string>)
    requires forall t :: t in tools ==> t in available
    ensures KeepAvailable(tools, available) == tools
    decreases |tools|
  {
    if tools != [] {
      assert tools[0] in tools;
      assert forall t :: t in tools[1..] ==> t in tools;
      KeepAllAvailable(tools[1..], available);
      assert tools == [tools[0]] + tools[1..];
    }
  }

  // -------------------------------------------------------- list_agents

  /** Rows `list_agents` skips: archived ones unless asked for. */
  predicate Shown(row: AgentRow, includeArchived: bool) {
    includeArchived || row.status != "archived"
  }

  /** The values of the present entries, in order. */
  function Somes<T>(s: seq<Option<T>>): seq<T>
    decreases |s|
  {
    if s == [] then []
    else
      var rest := Somes(s[..|s| - 1]);
      if s[|s| - 1].Some? then rest + [s[|s| - 1].value] else rest
  }

  /** A value is among the present entries exactly when some entry holds it. */
  lemma {:induction false} SomesMeaning<T>(s: seq<Option<T>>)
    ensures forall x :: x in Somes(s) <==> Some(x) in s
    ensures |Somes(s)| <= |s|
    decreases |s|
  {
    if s != [] {
      var n := |s| - 1;
      SomesMeaning(s[..n]);
      assert s == s[..n] + [s[n]];
    }
  }

  /** What one row contributes to `list_agents`: its schema when the row is
      shown and validates. */
  function ListEntry(row: AgentRow, includeArchived: bool): (r: Option<Agent>)
    ensures r.Some? ==> Shown(row, includeArchived) && Schema(row) == r
  {
    if Shown(row, includeArchived) then Schema(row) else None
  }

  function ListEntries(rows: seq<AgentRow>, includeArchived: bool): (es: seq<Option<Agent>>)
    ensures |es| == |rows| && forall i :: 0 <= i < |rows| ==> es[i] == ListEntry(rows[i], includeArchived)
  {
    seq(|rows|, i requires 0 <= i < |rows| => ListEntry(rows[i], includeArchived))
  }

  /** `list_agents(include_archived)`: the schema of every shown row whose
      schema validates, in table order. */
  function Listed(rows: seq<AgentRow>, includeArchived: bool): seq<Agent> {
    Somes(ListEntries(rows, includeArchived))
  }

  /** The row at `i` is listed as `a`. */
  predicate ListedAt(rows: seq<AgentRow>, includeArchived: bool, i: int, a: Agent) {
    0 <= i < |rows| && Shown(rows[i], includeArchived) && Schema(rows[i]) == Some(a)
  }

  /** An agent is listed exactly when some shown row validates to it; in
      particular no archived agent is listed unless asked for. */
  lemma ListedMeaning(rows: seq<AgentRow>, includeArchived: bool)
    ensures forall a :: a in Listed(rows, includeArchived) ==> exists i :: ListedAt(rows, includeArchived, i, a)
    ensures forall i :: 0 <= i < |rows| && Shown(rows[i], includeArchived) && Schema(rows[i]).Some? ==>
      Schema(rows[i]).value in Listed(rows, includeArchived)
    ensures |Listed(rows, includeArchived)| <= |rows|
  {
    var es := ListEntries(rows, includeArchived);
    SomesMeaning(es);
    forall a | a in Listed(rows, includeArchived) ensures exists i :: ListedAt(rows, includeArchived, i, a) {
      var i :| 0 <= i < |es| && es[i] == Some(a);
      assert ListedAt(rows, includeArchived, i, a);
    }
    forall i | 0 <= i < |rows| && Shown(rows[i], includeArchived) && Schema(rows[i]).Some?
      ensures Schema(rows[i]).value in Listed(rows, includeArchived)
    {
      assert es[i] == Schema(rows[i]);
    }
  }

  /** Without `include_archived` every listed agent has a status other than
      archived. */
  lemma ListedNotArchived(rows: seq<AgentRow>)
    ensures forall a :: a in Listed(rows, false) ==> a.status != Archived
  {
    ListedMeaning(rows, false);
    forall a | a in Listed(rows, false) ensures a.status != Archived {
      var i :| ListedAt(rows, false, i, a);
    }
  }

  // --------------------------------------------------- table constraints

  /** The primary key: no two rows share an id. */
  predicate UniqueIds(rows: seq<AgentRow>) {
    forall i, j :: 0 <= i < j < |rows| ==> rows[i].id != rows[j].id
  }

  /** The unique name column of line 11 of app/models_agents.py. */
  predicate UniqueNames(rows: seq<AgentRow>) {
    forall i, j :: 0 <= i < j < |rows| ==> rows[i].name != rows[j].name
  }

  predicate HasId(rows: seq<AgentRow>, id: string) {
    exists i :: 0 <= i < |rows| && rows[i].id == id
  }

  predicate HasName(rows: seq<AgentRow>, name: string) {
    exists i :: 0 <= i < |rows| && rows[i].name == name
  }

  /** The index of the row with `id`. */
  function IndexOf(rows: seq<AgentRow>, id: string): (r: Option<nat>)
    ensures r.Some? ==> r.value < |rows| && rows[r.value].id == id
    ensures r.None? <==> !HasId(rows, id)
    decreases |rows|
  {
    if rows == [] then None
    else if rows[|rows| - 1].id == id then Some(|rows| - 1)
    else
      var r := IndexOf(rows[..|rows| - 1], id);
      assert forall i :: 0 <= i < |rows| - 1 ==> rows[..|rows| - 1][i] == rows[i];
      if r.None? then None else Some(r.value)
  }

  /** `get_agent(agent_id)`: None for a missing id; a row whose schema does
      not validate makes it raise. */
  function AgentById(rows: seq<AgentRow>, id: string): Outcome<Option<Agent>> {
    match IndexOf(rows, id)
    case None => Ok(None)
    case Some(i) => if Schema(rows[i]).Some? then Ok(Schema(rows[i])) else Raises("ValidationError")
  }

  // ------------------------------------------------------ create_agent

  /** The name check of lines 86-88 as written: a clash counts only when the
      row holding the name is not archived. */
  predicate NameFreeAsWritten(rows: seq<AgentRow>, name: string) {
    forall i :: 0 <= i < |rows| && rows[i].name == name ==> rows[i].status == "archived"
  }

  /** The row `create_agent` inserts. */
  function NewRow(req: AgentCreate, id: string, now: int, available: set<string>): AgentRow {
    AgentRow(id, req.name, req.description, req.emoji, VisibilityText(req.visibility), req.teachable,
             Some(ValidateTools(Some(req.toolsAllowed), available)), "active", now, now)
  }

  /** The check as written lets the name of an archived agent through, and
      the row it then inserts breaks the unique name column: the commit
      fails with IntegrityError instead of the check's ValueError. */
  lemma ArchivedNameSlipsThrough(req: AgentCreate, id: string, now: int, available: set<string>)
    ensures var old_ := AgentRow("agent_00000000", req.name, None, None, "private", true, Some([]), "archived", 0, 0);
      && NameFreeAsWritten([old_], req.name)
      && UniqueNames([old_])
      && !UniqueNames([old_] + [NewRow(req, id, now, available)])
  {
    var old_ := AgentRow("agent_00000000", req.name, None, None, "private", true, Some([]), "archived", 0, 0);
    var both := [old_] + [NewRow(req, id, now, available)];
    assert both[0].name == both[1].name;
  }

  /** A freshly created agent is active, was created and updated at the same
      moment, and has its tools filtered by `_validate_tools`. */
  lemma NewRowSchema(req: AgentCreate, id: string, now: int, available: set<string>)
    requires ValidName(req.name)
    ensures var a := Schema(NewRow(req, id, now, available));
      && a.Some? && a.value.status == Active && a.value.createdAt == a.value.updatedAt == now
      && a.value.name == req.name && a.value.visibility == req.visibility
      && a.value.toolsAllowed == ValidateTools(Some(req.toolsAllowed), available)
  {
    LiteralsRoundTrip(req.visibility, Active, Shared);
  }

  // ------------------------------------------------------ update_agent

  /** The row after `update_agent`: each given field replaces the stored one
      (None leaves it), given tools pass `_validate_tools`, and the update
      time is always refreshed. */
  function Updated(row: AgentRow, req: AgentUpdate, now: int, available: set<string>): AgentRow {
    AgentRow(
      row.id,
      if req.name.Some? then req.name.value else row.name,
      if req.description.Some? then req.description else row.description,
      if req.emoji.Some? then req.emoji else row.emoji,
      if req.visibility.Some? then VisibilityText(req.visibility.value) else row.visibility,
      if req.teachable.Some? then req.teachable.value else row.teachable,
      if req.toolsAllowed.Some? then Some(ValidateTools(req.toolsAllowed, available)) else row.tools,
      if req.status.Some? then StatusText(req.status.value) else row.status,
      row.createdAt,
      now)
  }

  /** The empty update changes nothing but the update time. */
  lemma EmptyUpdateTouchesOnlyTime(row: AgentRow, now: int, available: set<string>)
    ensures Updated(row, AgentUpdate(None, None, None, None, None, None, None), now, available) == row.(updatedAt := now)
  {
  }

  /** The name other rows than `i` hold. */
  predicate NameHeldElsewhere(rows: seq<AgentRow>, i: int, name: string) {
    exists j :: 0 <= j < |rows| && j != i && rows[j].name == name
  }

  // -------------------------------------------------------- read_brain

  /** `max(1, min(limit, 500))`. */
  function BrainLimit(limit: int): (k: int)
    ensures 1 <= k <= 500
    ensures 1 <= limit <= 500 ==> k == limit
  {
    if limit < 1 then 1 else if limit > 500 then 500 else limit
  }

  /** The filters of lines 164-173: the agent; the scope only when it is one
      of the two literals; the user and the tag only when they are given
      and non-empty. */
  predicate BrainMatch(m: MemoryRow, agentId: string, scope: Option<string>, userId: Option<string>, tag: Option<string>) {
    && m.agentId == agentId
    && (scope.Some? && (scope.value == "shared" || scope.value == "per_user") ==> m.scope == scope.value)
    && (userId.Some? && userId.value != [] ==> m.userId == userId)
    && (tag.Some? && tag.value != [] ==> m.tags.Some? && tag.value in m.tags.value)
  }

  /** The matching memories, in row order. */
  function BrainRows(ms: seq<MemoryRow>, agentId: string, scope: Option<string>, userId: Option<string>, tag: Option<string>): (r: seq<MemoryRow>)
    ensures |r| <= |ms|
    decreases |ms|
  {
    if ms == [] then []
    else
      var n := |ms| - 1;
      var rest := BrainRows(ms[..n], agentId, scope, userId, tag);
      if BrainMatch(ms[n], agentId, scope, userId, tag) then rest + [ms[n]] else rest
  }

  /** The records of some memory rows; a row with a scope outside the two
      literals makes the conversion raise. */
  function Records(ms: seq<MemoryRow>): (r: Outcome<seq<MemoryRecord>>)
    ensures r.Ok? ==> |r.value| == |ms|
    decreases |ms|
  {
    if ms == [] then Ok([])
    else
      var n := |ms| - 1;
      match Records(ms[..n])
      case Raises(e) => Raises(e)
      case Ok(rs) => if MemorySchema(ms[n]).Some? then Ok(rs + [MemorySchema(ms[n]).value]) else Raises("ValidationError")
  }

  /** `read_brain(...)`: the records of the first `max(1, min(limit, 500))`
      matching memories. */
  function ReadBrainOf(ms: seq<MemoryRow>, agentId: string, scope: Option<string>, userId: Option<string>, tag: Option<string>, limit: int): Outcome<seq<MemoryRecord>> {
    Records(Take(BrainRows(ms, agentId, scope, userId, tag), BrainLimit(limit)))
  }

  /** Every selected memory is one of the rows and matches the filters. */
  lemma {:induction false} BrainRowsMembers(ms: seq<MemoryRow>, agentId: string, scope: Option<string>, userId: Option<string>, tag: Option<string>)
    ensures forall m :: m in BrainRows(ms, agentId, scope, userId, tag) ==> m in ms && BrainMatch(m, agentId, scope, userId, tag)
    decreases |ms|
  {
    if ms != [] {
      var n := |ms| - 1;
      BrainRowsMembers(ms[..n], agentId, scope, userId, tag);
      assert forall m :: m in ms[..n] ==> m in ms;
    }
  }

  /** At most the clamped limit of records, every one of a memory that
      matches the filters, in row order. */
  lemma ReadBrainBounds(ms: seq<MemoryRow>, agentId: string, scope: Option<string>, userId: Option<string>, tag: Option<string>, limit: int)
    ensures ReadBrainOf(ms, agentId, scope, userId, tag, limit).Ok? ==>
      |ReadBrainOf(ms, agentId, scope, userId, tag, limit).value| <= BrainLimit(limit)
    ensures forall m :: m in Take(BrainRows(ms, agentId, scope, userId, tag), BrainLimit(limit)) ==>
      m in ms && BrainMatch(m, agentId, scope, userId, tag)
  {
    var sel := BrainRows(ms, agentId, scope, userId, tag);
    var t := Take(sel, BrainLimit(limit));
    BrainRowsMembers(ms, agentId, scope, userId, tag);
    forall m | m in t ensures m in sel {
      var i :| 0 <= i < |t| && t[i] == m;
      assert sel[i] == m;
    }
  }

  /** Filtering goes row by row. */
  lemma {:induction false} BrainRowsAppend(a: seq<MemoryRow>, b: seq<MemoryRow>, agentId: string, scope: Option<string>, userId: Option<string>, tag: Option<string>)
    ensures BrainRows(a + b, agentId, scope, userId, tag) == BrainRows(a, agentId, scope, userId, tag) + BrainRows(b, agentId, scope, userId, tag)
    decreases |b|
  {
    if b == [] {
      assert a + b == a;
    } else {
      var n := |b| - 1;
      assert (a + b)[..|a + b| - 1] == a + b[..n];
      BrainRowsAppend(a, b[..n], agentId, scope, userId, tag);
    }
  }

  /** Conversion goes row by row. */
  lemma {:induction false} RecordsOfPrefix(ms: seq<MemoryRow>, k: nat)
    requires k <= |ms|
    requires Records(ms).Ok?
    ensures Records(ms[..k]).Ok? && Records(ms[..k]).value == Records(ms).value[..k]
    decreases |ms| - k
  {
    if k < |ms| {
      var n := |ms| - 1;
      if k < n {
        assert ms[..n][..k] == ms[..k];
        RecordsOfPrefix(ms[..n], k);
      } else {
        assert ms[..n] == ms[..k];
      }
    } else {
      assert ms[..k] == ms;
    }
  }

  // ---------------------------------------------------------- exec_tool

  /** The tool runner module as `exec_tool` finds it. */
  datatype Runner =
    | ImportFails(error: string)
    | WithExecTool(answer: Outcome<map<string, Json>>)
    | WithRun(output: Outcome<Json>)
    | WithoutEntry

  function Refusal(error: string): map<string, Json> {
    map["ok" := JBool(false), "error" := JStr(error)]
  }

  /** `exec_tool(...)` once `get_agent` has answered. */
  function ExecResult(agent: Option<Agent>, toolKey: string, runner: Runner): map<string, Json> {
    if agent.None? then Refusal("agent_not_found")
    else if toolKey !in agent.value.toolsAllowed then Refusal("tool_not_allowed")
    else match runner
      case ImportFails(e) => Refusal("runner_error: " + e)
      case WithExecTool(Ok(d)) => d
      case WithExecTool(Raises(e)) => Refusal("runner_error: " + e)
      case WithRun(Ok(out)) => map["ok" := JBool(true), "output" := out]
      case WithRun(Raises(e)) => Refusal("runner_error: " + e)
      case WithoutEntry => Refusal("runner_missing_exec_tool")
  }

  /** The guards come before the runner: an unknown agent or a tool the
      agent may not use is refused whatever the runner would do, and a tool
      reaches the runner only when the agent allows it. */
  lemma GuardsFirst(agent: Option<Agent>, toolKey: string, runner: Runner, other: Runner)
    ensures agent.None? ==> ExecResult(agent, toolKey, runner) == Refusal("agent_not_found")
    ensures agent.Some? && toolKey !in agent.value.toolsAllowed ==>
      ExecResult(agent, toolKey, runner) == Refusal("tool_not_allowed")
    ensures ExecResult(agent, toolKey, runner) != ExecResult(agent, toolKey, other) ==>
      agent.Some? && toolKey in agent.value.toolsAllowed
  {
  }

  // ---------------------------------------------------------- the store

  /** The two tables, updated in place by the operations of lines 66-197. */
  class AgentStore {
    var rows: seq<AgentRow>
    var memories: seq<MemoryRow>

    /** The constraints of the agents table. */
    ghost predicate Valid()
      reads this
    {
      UniqueIds(rows) && UniqueNames(rows)
    }

    constructor()
      ensures rows == [] && memories == [] && Valid()
    {
      rows := [];
      memories := [];
    }

    /** `list_agents(include_archived)`. */
    method ListAgents(includeArchived: bool) returns (out: seq<Agent>)
      ensures out == Listed(rows, includeArchived)
    {
      ghost var es := ListEntries(rows, includeArchived);
      out := [];
      var i := 0;
      while i < |rows|
        invariant 0 <= i <= |rows|
        invariant out == Somes(es[..i])
      {
        assert es[..i + 1][..i] == es[..i];
        var r := rows[i];
        if includeArchived || r.status != "archived" {
          var a := Schema(r);
          if a.Some? {
            out := out + [a.value];
          }
        }
        i := i + 1;
      }
      assert es[..i] == es;
    }

    /** `get_agent(agent_id)`. */
    method GetAgent(id: string) returns (r: Outcome<Option<Agent>>)
      ensures r == AgentById(rows, id)
    {
      var i := IndexOf(rows, id);
      if i.None? {
        return Ok(None);
      }
      var a := Schema(rows[i.value]);
      if a.None? {
        return Raises("ValidationError");
      }
      return Ok(a);
    }

    /** `create_agent(req)` with `newId` as the generated id and `now` as the
        clock. The name check rejects any row holding the name: the check as
        written skips archived rows (see `NameFreeAsWritten`). */
    method CreateAgent(req: AgentCreate, newId: string, now: int, available: set<string>) returns (r: Outcome<Agent>)
      requires Valid() && ValidName(req.name)
      modifies this
      ensures Valid()
      ensures memories == old(memories)
      ensures HasName(old(rows), req.name) ==>
        r == Raises("ValueError: Agent with this name already exists") && rows == old(rows)
      ensures !HasName(old(rows), req.name) && HasId(old(rows), newId) ==> r == Raises("IntegrityError") && rows == old(rows)
      ensures !HasName(old(rows), req.name) && !HasId(old(rows), newId) ==>
        && rows == old(rows) + [NewRow(req, newId, now, available)]
        && r == Ok(Schema(NewRow(req, newId, now, available)).value)
    {
      if exists i :: 0 <= i < |rows| && rows[i].name == req.name {
        return Raises("ValueError: Agent with this name already exists");
      }
      if exists i :: 0 <= i < |rows| && rows[i].id == newId {
        return Raises("IntegrityError");
      }
      var row := NewRow(req, newId, now, available);
      NewRowSchema(req, newId, now, available);
      rows := rows + [row];
      r := Ok(Schema(row).value);
    }

    /** `update_agent(agent_id, req)`: None for a missing id; otherwise the
        updated row is committed, and its schema is returned (None when it
        does not validate). Renaming to a name another agent holds is
        refused by the unique column. */
    method UpdateAgent(id: string, req: AgentUpdate, now: int, available: set<string>) returns (r: Outcome<Option<Agent>>)
      requires Valid()
      modifies this
      ensures Valid()
      ensures memories == old(memories)
      ensures !HasId(old(rows), id) ==> r == Ok(None) && rows == old(rows)
      ensures HasId(old(rows), id) ==>
        var i := IndexOf(old(rows), id).value;
        var row := Updated(old(rows)[i], req, now, available);
        if req.name.Some? && NameHeldElsewhere(old(rows), i, req.name.value) then
          r == Raises("IntegrityError") && rows == old(rows)
        else
          rows == old(rows)[i := row] && r == Ok(Schema(row))
    {
      var idx := IndexOf(rows, id);
      if idx.None? {
        return Ok(None);
      }
      var i := idx.value;
      if req.name.Some? && exists j :: 0 <= j < |rows| && j != i && rows[j].name == req.name.value {
        return Raises("IntegrityError");
      }
      var row := Updated(rows[i], req, now, available);
      rows := rows[i := row];
      r := Ok(Schema(row));
    }

    /** `archive_agent(agent_id)`: False for a missing id; otherwise the row
        is marked archived, with a fresh update time, and True is returned. */
    method ArchiveAgent(id: string, now: int) returns (found: bool)
      requires Valid()
      modifies this
      ensures Valid()
      ensures memories == old(memories)
      ensures found <==> HasId(old(rows), id)
      ensures !found ==> rows == old(rows)
      ensures found ==>
        var i := IndexOf(old(rows), id).value;
        rows == old(rows)[i := old(rows)[i].(status := "archived", updatedAt := now)]
    {
      var idx := IndexOf(rows, id);
      if idx.None? {
        return false;
      }
      var i := idx.value;
      rows := rows[i := rows[i].(status := "archived", updatedAt := now)];
      return true;
    }

    /** `teach(agent_id, req)` with `memoryId` as the id derived from the
        content, user and time. */
    method Teach(agentId: string, req: Teach, memoryId: string, now: int) returns (r: Outcome<MemoryRecord>)
      modifies this
      ensures rows == old(rows)
      ensures !HasId(rows, agentId) ==> r == Raises("ValueError: Agent not found") && memories == old(memories)
      ensures HasId(rows, agentId) ==>
        var m := MemoryRow(memoryId, agentId, ScopeText(req.scope), req.userId,
                           Some(if req.tags.Some? then req.tags.value else []), req.content, now);
        if exists k :: 0 <= k < |old(memories)| && old(memories)[k].memoryId == memoryId then
          r == Raises("IntegrityError") && memories == old(memories)
        else
          memories == old(memories) + [m] && MemorySchema(m).Some? && r == Ok(MemorySchema(m).value)
    {
      if IndexOf(rows, agentId).None? {
        return Raises("ValueError: Agent not found");
      }
      if exists k :: 0 <= k < |memories| && memories[k].memoryId == memoryId {
        return Raises("IntegrityError");
      }
      var m := MemoryRow(memoryId, agentId, ScopeText(req.scope), req.userId,
                         Some(if req.tags.Some? then req.tags.value else []), req.content, now);
      LiteralsRoundTrip(Public, Active, req.scope);
      memories := memories + [m];
      r := Ok(MemorySchema(m).value);
    }

    /** `log_message(agent_id, content, user_id, tag)`: `teach` with the
        shared scope and the one tag; a content outside 1..8192 characters
        fails the request's validation before anything is stored. */
    method LogMessage(agentId: string, content: string, userId: Option<string>, tag: string, memoryId: string, now: int)
      returns (r: Outcome<MemoryRecord>)
      modifies this
      ensures rows == old(rows)
      ensures !(1 <= |content| <= 8192) ==> r == Raises("ValidationError") && memories == old(memories)
      ensures 1 <= |content| <= 8192 && !HasId(rows, agentId) ==> r == Raises("ValueError: Agent not found") && memories == old(memories)
      ensures 1 <= |content| <= 8192 && HasId(rows, agentId) && (forall k :: 0 <= k < |old(memories)| ==> old(memories)[k].memoryId != memoryId) ==>
        memories == old(memories) + [MemoryRow(memoryId, agentId, "shared", userId, Some([tag]), content, now)] && r.Ok?
    {
      var req := ValidateTeach(content, Some("shared"), userId, Some([tag]));
      if req.None? {
        return Raises("ValidationError");
      }
      r := Teach(agentId, req.value, memoryId, now);
    }

    /** `exec_tool(...)`: `get_agent` first (its ValidationError is not
        caught), then the guards, then the runner. */
    method ExecTool(agentId: string, toolKey: string, runner: Runner) returns (r: Outcome<map<string, Json>>)
      ensures AgentById(rows, agentId).Raises? ==> r == Raises(AgentById(rows, agentId).error)
      ensures AgentById(rows, agentId).Ok? ==> r == Ok(ExecResult(AgentById(rows, agentId).value, toolKey, runner))
    {
      var ag := GetAgent(agentId);
      if ag.Raises? {
        return Raises(ag.error);
      }
      r := Ok(ExecResult(ag.value, toolKey, runner));
    }

    /** `read_brain(...)`: the loop stops as soon as the clamped limit of
        records is reached. */
    method ReadBrain(agentId: string, scope: Option<string>, userId: Option<string>, tag: Option<string>, limit: int)
      returns (r: Outcome<seq<MemoryRecord>>)
      ensures r == ReadBrainOf(memories, agentId, scope, userId, tag, limit)
    {
      var ms := memories;
      var k := BrainLimit(limit);
      var out: seq<MemoryRecord> := [];
      var i := 0;
      while i < |ms|
        invariant 0 <= i <= |ms|
        invariant BrainSoFar(ms, i, agentId, scope, userId, tag, out)
        invariant |out| < k
      {
        var m := ms[i];
        if BrainMatch(m, agentId, scope, userId, tag) {
          var rec := MemorySchema(m);
          if rec.None? {
            BrainFail(ms, i, agentId, scope, userId, tag, limit, out);
            return Raises("ValidationError");
          }
          BrainAdd(ms, i, agentId, scope, userId, tag, out);
          out := out + [rec.value];
          if |out| >= k {
            BrainFull(ms, i + 1, agentId, scope, userId, tag, limit, out);
            return Ok(out);
          }
        } else {
          BrainSkip(ms, i, agentId, scope, userId, tag, out);
        }
        i := i + 1;
      }
      BrainDone(ms, agentId, scope, userId, tag, limit, out);
      r := Ok(out);
    }
  }

  /** The records of the matching memories among the first `i` rows. */
  predicate BrainSoFar(ms: seq<MemoryRow>, i: nat, agentId: string, scope: Option<string>, userId: Option<string>, tag: Option<string>,
                       out: seq<MemoryRecord>)
    requires i <= |ms|
  {
    Records(BrainRows(ms[..i], agentId, scope, userId, tag)) == Ok(out)
  }

  /** A row that does not match leaves the records as they were. */
  lemma BrainSkip(ms: seq<MemoryRow>, i: nat, agentId: string, scope: Option<string>, userId: Option<string>, tag: Option<string>,
                  out: seq<MemoryRecord>)
    requires i < |ms| && !BrainMatch(ms[i], agentId, scope, userId, tag)
    requires BrainSoFar(ms, i, agentId, scope, userId, tag, out)
    ensures BrainSoFar(ms, i + 1, agentId, scope, userId, tag, out)
  {
    BrainRowsSnoc(ms, i, agentId, scope, userId, tag);
    var p := BrainRows(ms[..i], agentId, scope, userId, tag);
    assert p + [] == p;
  }

  /** A matching row that converts adds its record. */
  lemma BrainAdd(ms: seq<MemoryRow>, i: nat, agentId: string, scope: Option<string>, userId: Option<string>, tag: Option<string>,
                 out: seq<MemoryRecord>)
    requires i < |ms| && BrainMatch(ms[i], agentId, scope, userId, tag) && MemorySchema(ms[i]).Some?
    requires BrainSoFar(ms, i, agentId, scope, userId, tag, out)
    ensures BrainSoFar(ms, i + 1, agentId, scope, userId, tag, out + [MemorySchema(ms[i]).value])
  {
    BrainRowsSnoc(ms, i, agentId, scope, userId, tag);
    RecordsSnoc(BrainRows(ms[..i], agentId, scope, userId, tag), ms[i]);
  }

  /** A matching row that fails to convert below the limit ends `read_brain`
      with the error. */
  lemma BrainFail(ms: seq<MemoryRow>, i: nat, agentId: string, scope: Option<string>, userId: Option<string>, tag: Option<string>,
                  limit: int, out: seq<MemoryRecord>)
    requires i < |ms| && BrainMatch(ms[i], agentId, scope, userId, tag) && MemorySchema(ms[i]).None?
    requires BrainSoFar(ms, i, agentId, scope, userId, tag, out) && |out| < BrainLimit(limit)
    ensures ReadBrainOf(ms, agentId, scope, userId, tag, limit) == Raises("ValidationError")
  {
    BrainRowsSnoc(ms, i, agentId, scope, userId, tag);
    RecordsSnoc(BrainRows(ms[..i], agentId, scope, userId, tag), ms[i]);
    BrainStops(ms, i + 1, agentId, scope, userId, tag, BrainLimit(limit));
  }

  /** Records that reach the limit are the answer of `read_brain`. */
  lemma BrainFull(ms: seq<MemoryRow>, i: nat, agentId: string, scope: Option<string>, userId: Option<string>, tag: Option<string>,
                  limit: int, out: seq<MemoryRecord>)
    requires i <= |ms| && BrainSoFar(ms, i, agentId, scope, userId, tag, out) && |out| == BrainLimit(limit)
    ensures ReadBrainOf(ms, agentId, scope, userId, tag, limit) == Ok(out)
  {
    BrainStops(ms, i, agentId, scope, userId, tag, BrainLimit(limit));
  }

  /** The `read_brain` loop ran through every row below the limit. */
  lemma BrainDone(ms: seq<MemoryRow>, agentId: string, scope: Option<string>, userId: Option<string>, tag: Option<string>,
                  limit: int, out: seq<MemoryRecord>)
    requires BrainSoFar(ms, |ms|, agentId, scope, userId, tag, out)
    requires |out| < BrainLimit(limit)
    ensures ReadBrainOf(ms, agentId, scope, userId, tag, limit) == Ok(out)
  {
    assert ms[..|ms|] == ms;
    var sel := BrainRows(ms, agentId, scope, userId, tag);
    assert Take(sel, BrainLimit(limit)) == sel;
  }

  lemma BrainRowsSnoc(ms: seq<MemoryRow>, i: nat, agentId: string, scope: Option<string>, userId: Option<string>, tag: Option<string>)
    requires i < |ms|
    ensures BrainRows(ms[..i + 1], agentId, scope, userId, tag) ==
      BrainRows(ms[..i], agentId, scope, userId, tag) + (if BrainMatch(ms[i], agentId, scope, userId, tag) then [ms[i]] else [])
  {
    assert ms[..i + 1][..i] == ms[..i];
  }

  lemma RecordsSnoc(p: seq<MemoryRow>, m: MemoryRow)
    ensures Records(p + [m]) ==
      match Records(p)
      case Raises(e) => Raises(e)
      case Ok(rs) => if MemorySchema(m).Some? then Ok(rs + [MemorySchema(m).value]) else Raises("ValidationError")
  {
    assert (p + [m])[..|p|] == p;
  }

  /** When the matches among the first `i` rows reach the limit, or their
      conversion raised, the rest of the rows make no difference. */
  lemma BrainStops(ms: seq<MemoryRow>, i: nat, agentId: string, scope: Option<string>, userId: Option<string>, tag: Option<string>, k: int)
    requires i <= |ms| && 1 <= k
    requires var p := BrainRows(ms[..i], agentId, scope, userId, tag);
      |p| <= k && (|p| == k || Records(p).Raises?)
    ensures Records(Take(BrainRows(ms, agentId, scope, userId, tag), k)) == Records(BrainRows(ms[..i], agentId, scope, userId, tag))
  {
    assert ms == ms[..i] + ms[i..];
    BrainRowsAppend(ms[..i], ms[i..], agentId, scope, userId, tag);
    var p := BrainRows(ms[..i], agentId, scope, userId, tag);
    var all := BrainRows(ms, agentId, scope, userId, tag);
    assert all[..|p|] == p;
    if |p| == k {
      assert Take(all, k) == p;
    } else {
      RaisesExtends(p, all, k);
    }
  }

  /** A conversion that raised on a prefix raises on any longer selection. */
  lemma RaisesExtends(p: seq<MemoryRow>, all: seq<MemoryRow>, k: int)
    requires |p| < k && |p| <= |all| && all[..|p|] == p
    requires Records(p).Raises?
    ensures Records(Take(all, k)) == Records(p)
  {
    var t := Take(all, k);
    assert t[..|p|] == p;
    RaisesPrefix(t, |p|);
  }

  lemma {:induction false} RaisesPrefix(ms: seq<MemoryRow>, j: nat)
    requires j <= |ms|
    requires Records(ms[..j]).Raises?
    ensures Records(ms) == Records(ms[..j])
    decreases |ms| - j
  {
    if j < |ms| {
      assert ms[..j + 1][..j] == ms[..j];
      RaisesPrefix(ms, j + 1);
    } else {
      assert ms[..j] == ms;
    }
  }
}
