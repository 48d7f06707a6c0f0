/** The agent schemas (app/agent_models.py): the literal choices for
    visibility, status and memory scope, the length limits on names and
    taught content, and the defaults a request gets for the fields it leaves
    out. Validation takes the fields as given (None as `None`); a field
    present with a value of the wrong type is not part of this model. */
module AgentModels {
  import opened PyText

  datatype Visibility = Public | Unlisted | Private
  datatype AgentStatus = Active | Disabled | Archived
  datatype Scope = PerUser | Shared

  /** The text of each choice. */
  function VisibilityText(v: Visibility): string {
    match v
    case Public => "public"
    case Unlisted => "unlisted"
    case Private => "private"
  }

  function StatusText(s: AgentStatus): string {
    match s
    case Active => "active"
    case Disabled => "disabled"
    case Archived => "archived"
  }

  function ScopeText(s: Scope): string {
    match s
    case PerUser => "per_user"
    case Shared => "shared"
  }

  /** `Literal["public", "unlisted", "private"]` checking a text. */
  function ParseVisibility(s: string): (r: Option<Visibility>)
    ensures r.Some? ==> VisibilityText(r.value) == s
  {
    if s == "public" then Some(Public)
    else if s == "unlisted" then Some(Unlisted)
    else if s == "private" then Some(Private)
    else None
  }

  function ParseStatus(s: string): (r: Option<AgentStatus>)
    ensures r.Some? ==> StatusText(r.value) == s
  {
    if s == "active" then Some(Active)
    else if s == "disabled" then Some(Disabled)
    else if s == "archived" then Some(Archived)
    else None
  }

  function ParseScope(s: string): (r: Option<Scope>)
    ensures r.Some? ==> ScopeText(r.value) == s
  {
    if s == "per_user" then Some(PerUser)
    else if s == "shared" then Some(Shared)
    else None
  }

  /** Each literal is accepted exactly in its own spelling. */
  lemma LiteralsRoundTrip(v: Visibility, st: AgentStatus, sc: Scope)
    ensures ParseVisibility(VisibilityText(v)) == Some(v)
    ensures ParseStatus(StatusText(st)) == Some(st)
    ensures ParseScope(ScopeText(sc)) == Some(sc)
  {
  }

  /** `Field(min_length=2, max_length=64)` on an agent name. */
  predicate ValidName(name: string) {
    2 <= |name| <= 64
  }

  /** `AgentBase` / `AgentCreateRequest` after validation. */
  datatype AgentCreate = AgentCreate(
    name: string, description: Option<string>, emoji: Option<string>,
    visibility: Visibility, teachable: bool, toolsAllowed: seq<string>)

  /** `AgentUpdateRequest` after validation: every field optional. */
  datatype AgentUpdate = AgentUpdate(
    name: Option<string>, description: Option<string>, emoji: Option<string>,
    visibility: Option<Visibility>, teachable: Option<bool>,
    toolsAllowed: Option<seq<string>>, status: Option<AgentStatus>)

  /** `Agent`: the base fields plus id, status and the two timestamps. */
  datatype Agent = Agent(
    id: string, name: string, description: Option<string>, emoji: Option<string>,
    visibility: Visibility, teachable: bool, toolsAllowed: seq<string>,
    status: AgentStatus, createdAt: int, updatedAt: int)

  /** `TeachRequest` after validation. */
  datatype Teach = Teach(content: string, scope: Scope, userId: Option<string>, tags: Option<seq<string>>)

  /** Validating the fields of an `AgentCreateRequest`: the name must have 2 to
      64 characters, a given visibility must be one of the three literals;
      visibility defaults to "private", teachable to True, tools to []. */
  function ValidateCreate(
    name: string, description: Option<string>, emoji: Option<string>,
    visibility: Option<string>, teachable: Option<bool>, tools: Option<seq<string>>): (r: Option<AgentCreate>)
    ensures r.Some? <==> ValidName(name) && (visibility.None? || ParseVisibility(visibility.value).Some?)
    ensures r.Some? ==> r.value.name == name && r.value.description == description && r.value.emoji == emoji
    ensures r.Some? && visibility.None? ==> r.value.visibility == Private
    ensures r.Some? && visibility.Some? ==> VisibilityText(r.value.visibility) == visibility.value
    ensures r.Some? ==> r.value.teachable == (teachable.None? || teachable.value)
    ensures r.Some? ==> r.value.toolsAllowed == (if tools.Some? then tools.value else [])
  {
    if !ValidName(name) then None
    else
      var vis := if visibility.None? then Some(Private) else ParseVisibility(visibility.value);
      if vis.None? then None
      else Some(AgentCreate(name, description, emoji, vis.value,
                            if teachable.Some? then teachable.value else true,
                            if tools.Some? then tools.value else []))
  }

  /** Validating the fields of an `AgentUpdateRequest`: only the fields that
      are given are checked, by the same rules as on creation. */
  function ValidateUpdate(
    name: Option<string>, description: Option<string>, emoji: Option<string>,
    visibility: Option<string>, teachable: Option<bool>, tools: Option<seq<string>>,
    status: Option<string>): (r: Option<AgentUpdate>)
    ensures r.Some? <==>
      && (name.None? || ValidName(name.value))
      && (visibility.None? || ParseVisibility(visibility.value).Some?)
      && (status.None? || ParseStatus(status.value).Some?)
    ensures r.Some? ==> r.value.name == name && r.value.toolsAllowed == tools && r.value.teachable == teachable
    ensures r.Some? ==> (r.value.visibility.Some? <==> visibility.Some?) && (r.value.status.Some? <==> status.Some?)
  {
    if name.Some? && !ValidName(name.value) then None
    else if visibility.Some? && ParseVisibility(visibility.value).None? then None
    else if status.Some? && ParseStatus(status.value).None? then None
    else Some(AgentUpdate(name, description, emoji,
                          if visibility.Some? then ParseVisibility(visibility.value) else None,
                          teachable, tools,
                          if status.Some? then ParseStatus(status.value) else None))
  }

  /** The empty update is valid: every field of `AgentUpdateRequest` is
      optional. */
  lemma EmptyUpdateValid()
    ensures ValidateUpdate(None, None, None, None, None, None, None) == Some(AgentUpdate(None, None, None, None, None, None, None))
  {
  }

  /** Validating the fields of a `TeachRequest`: the content must have 1 to
      8192 characters, a given scope must be "per_user" or "shared", and the
      scope defaults to "shared". */
  function ValidateTeach(content: string, scope: Option<string>, userId: Option<string>, tags: Option<seq<string>>): (r: Option<Teach>)
    ensures r.Some? <==> 1 <= |content| <= 8192 && (scope.None? || ParseScope(scope.value).Some?)
    ensures r.Some? ==> r.value.content == content && r.value.userId == userId && r.value.tags == tags
    ensures r.Some? ==> r.value.scope == (if scope.None? then Shared else ParseScope(scope.value).value)
  {
    if !(1 <= |content| <= 8192) then None
    else
      var sc := if scope.None? then Some(Shared) else ParseScope(scope.value);
      if sc.None? then None else Some(Teach(content, sc.value, userId, tags))
  }

  /** The agent schema a stored row converts to: the row's name, visibility
      and status must pass the same checks; its tools default to []. */
  function ToAgent(
    id: string, name: string, description: Option<string>, emoji: Option<string>,
    visibility: string, teachable: bool, tools: Option<seq<string>>, status: string,
    createdAt: int, updatedAt: int): (r: Option<Agent>)
    ensures r.Some? <==> ValidName(name) && ParseVisibility(visibility).Some? && ParseStatus(status).Some?
    ensures r.Some? ==>
      && r.value.id == id && r.value.name == name
      && VisibilityText(r.value.visibility) == visibility && StatusText(r.value.status) == status
      && r.value.toolsAllowed == (if tools.Some? then tools.value else [])
  {
    if !ValidName(name) then None
    else match (ParseVisibility(visibility), ParseStatus(status))
      case (Some(v), Some(s)) =>
        Some(Agent(id, name, description, emoji, v, teachable, if tools.Some? then tools.value else [], s, createdAt, updatedAt))
      case _ => None
  }
}
