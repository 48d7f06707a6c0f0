/** The public agent catalogue (`GET /catalog/agents`, app/routes/catalog_api.py):
    the agents listed without archived ones, kept when public or unlisted
    and, when a query is given, when the query occurs in the name ignoring
    case; at most `max(1, min(limit, 200))` of them, each as a catalogue
    entry. The `lang` query parameter is accepted and ignored, so it is not
    a parameter here. */
module CatalogRoutes {
  import opened PyText
  import opened AgentModels
  import AgentManager

  /** One entry of the catalogue. */
  datatype Entry = Entry(
    id: string, name: string, emoji: Option<string>, blurb: Option<string>,
    languages: seq<string>, visibility: Visibility)

  /** The entry shown for an agent: its description as the blurb and no
      languages. */
  function EntryOf(a: Agent): (e: Entry)
    ensures e.id == a.id && e.name == a.name && e.emoji == a.emoji
    ensures e.blurb == a.description && e.languages == [] && e.visibility == a.visibility
  {
    Entry(a.id, a.name, a.emoji, a.description, [], a.visibility)
  }

  /** The number of entries the route returns at most. */
  function CatalogLimit(limit: int): (k: int)
    ensures 1 <= k <= 200
    ensures 1 <= limit <= 200 ==> k == limit
    ensures limit < 1 ==> k == 1
    ensures limit > 200 ==> k == 200
  {
    if limit < 1 then 1 else if limit > 200 then 200 else limit
  }

  /** An agent is shown when it is public or unlisted and a non-empty query
      occurs in its name, both lowered. */
  predicate Shown(a: Agent, q: Option<string>) {
    && a.visibility != Private
    && (q.None? || q.value == [] || Contains(LowerStr(a.name), LowerStr(q.value)))
  }

  /** The entries of every shown agent, in listing order. */
  function Catalog(agents: seq<Agent>, q: Option<string>): (r: seq<Entry>)
    ensures |r| <= |agents|
    decreases |agents|
  {
    if agents == [] then []
    else
      var n := |agents| - 1;
      var rest := Catalog(agents[..n], q);
      if Shown(agents[n], q) then rest + [EntryOf(agents[n])] else rest
  }

  /** `public_agents(q, lang, limit)` over the agents `list_agents` returned. */
  function PublicAgentsOf(agents: seq<Agent>, q: Option<string>, limit: int): seq<Entry> {
    Take(Catalog(agents, q), CatalogLimit(limit))
  }

  /** Every entry is that of a shown agent. */
  lemma {:induction false} CatalogSound(agents: seq<Agent>, q: Option<string>)
    ensures forall e :: e in Catalog(agents, q) ==> exists a :: a in agents && Shown(a, q) && e == EntryOf(a)
    decreases |agents|
  {
    if agents != [] {
      var n := |agents| - 1;
      CatalogSound(agents[..n], q);
      forall e | e in Catalog(agents, q) ensures exists a :: a in agents && Shown(a, q) && e == EntryOf(a) {
        if e in Catalog(agents[..n], q) {
          var a :| a in agents[..n] && Shown(a, q) && e == EntryOf(a);
          assert a in agents;
        } else {
          assert agents[n] in agents;
        }
      }
    }
  }

  /** Every shown agent has its entry in the full catalogue. */
  lemma {:induction false} CatalogComplete(agents: seq<Agent>, q: Option<string>)
    ensures forall a :: a in agents && Shown(a, q) ==> EntryOf(a) in Catalog(agents, q)
    decreases |agents|
  {
    if agents != [] {
      var n := |agents| - 1;
      CatalogComplete(agents[..n], q);
      forall a | a in agents && Shown(a, q) ensures EntryOf(a) in Catalog(agents, q) {
        if a != agents[n] {
          var i :| 0 <= i < |agents| && agents[i] == a;
          assert a in agents[..n] by { assert agents[..n][i] == a; }
        }
      }
    }
  }

  /** What the route promises: at most the clamped limit of entries, every
      one that of a public or unlisted agent matching the query; and when
      fewer agents are shown than the limit, every one of them. */
  lemma PublicAgentsMeaning(agents: seq<Agent>, q: Option<string>, limit: int)
    ensures |PublicAgentsOf(agents, q, limit)| <= CatalogLimit(limit)
    ensures forall e :: e in PublicAgentsOf(agents, q, limit) ==>
      exists a :: a in agents && a.visibility in {Public, Unlisted} && Shown(a, q) && e == EntryOf(a)
    ensures |Catalog(agents, q)| <= CatalogLimit(limit) ==>
      forall a :: a in agents && Shown(a, q) ==> EntryOf(a) in PublicAgentsOf(agents, q, limit)
  {
    var c := Catalog(agents, q);
    var r := PublicAgentsOf(agents, q, limit);
    CatalogSound(agents, q);
    CatalogComplete(agents, q);
    forall e | e in r ensures exists a :: a in agents && a.visibility in {Public, Unlisted} && Shown(a, q) && e == EntryOf(a) {
      var i :| 0 <= i < |r| && r[i] == e;
      assert c[i] == e && e in c;
      var a :| a in agents && Shown(a, q) && e == EntryOf(a);
      assert a.visibility in {Public, Unlisted};
    }
    if |c| <= CatalogLimit(limit) {
      assert r == c;
    }
  }

  /** Without a query every public or unlisted agent is shown; an empty
      query is no query. */
  lemma EmptyQueryShowsAll(agents: seq<Agent>)
    ensures Catalog(agents, Some("")) == Catalog(agents, None)
    ensures forall a :: a in agents && a.visibility != Private ==> EntryOf(a) in Catalog(agents, None)
  {
    CatalogSameShown(agents, Some(""), None);
    CatalogComplete(agents, None);
  }

  lemma {:induction false} CatalogSameShown(agents: seq<Agent>, q: Option<string>, q': Option<string>)
    requires forall a :: a in agents ==> (Shown(a, q) <==> Shown(a, q'))
    ensures Catalog(agents, q) == Catalog(agents, q')
    decreases |agents|
  {
    if agents != [] {
      var n := |agents| - 1;
      assert agents[n] in agents;
      assert forall a :: a in agents[..n] ==> a in agents;
      CatalogSameShown(agents[..n], q, q');
    }
  }

  /** The catalogue is built row by row. */
  lemma {:induction false} CatalogAppend(a: seq<Agent>, b: seq<Agent>, q: Option<string>)
    ensures Catalog(a + b, q) == Catalog(a, q) + Catalog(b, q)
    decreases |b|
  {
    if b == [] {
      assert a + b == a;
    } else {
      var n := |b| - 1;
      assert (a + b)[..|a + b| - 1] == a + b[..n];
      CatalogAppend(a, b[..n], q);
    }
  }

  /** Once the entries of the first `i` agents reach the limit, the rest do
      not change the answer. */
  lemma CatalogFull(agents: seq<Agent>, i: nat, q: Option<string>, limit: int)
    requires i <= |agents| && |Catalog(agents[..i], q)| == CatalogLimit(limit)
    ensures PublicAgentsOf(agents, q, limit) == Catalog(agents[..i], q)
  {
    assert agents == agents[..i] + agents[i..];
    CatalogAppend(agents[..i], agents[i..], q);
  }

  /** The entries of the shown agents among the first `i`. */
  predicate SoFar(agents: seq<Agent>, i: nat, q: Option<string>, out: seq<Entry>)
    requires i <= |agents|
  {
    out == Catalog(agents[..i], q)
  }

  /** One agent of the loop: a shown agent adds its entry, any other adds
      nothing. */
  lemma CatalogStep(agents: seq<Agent>, i: nat, q: Option<string>, out: seq<Entry>)
    requires i < |agents| && SoFar(agents, i, q, out)
    ensures Shown(agents[i], q) ==> SoFar(agents, i + 1, q, out + [EntryOf(agents[i])])
    ensures !Shown(agents[i], q) ==> SoFar(agents, i + 1, q, out)
  {
    assert agents[..i + 1][..i] == agents[..i];
  }

  /** The route's loop over the listing: skip what is not shown, append the
      entry, stop at the limit. */
  method PublicAgentsFrom(agents: seq<Agent>, q: Option<string>, limit: int) returns (out: seq<Entry>)
    ensures out == PublicAgentsOf(agents, q, limit)
  {
    var k := CatalogLimit(limit);
    out := [];
    var i := 0;
    while i < |agents|
      invariant 0 <= i <= |agents|
      invariant SoFar(agents, i, q, out)
      invariant |out| < k
    {
      CatalogStep(agents, i, q, out);
      var a := agents[i];
      if a.visibility != Public && a.visibility != Unlisted {
        i := i + 1;
        continue;
      }
      if q.Some? && q.value != [] && !Contains(LowerStr(a.name), LowerStr(q.value)) {
        i := i + 1;
        continue;
      }
      out := out + [EntryOf(a)];
      if |out| >= k {
        CatalogFull(agents, i + 1, q, limit);
        return;
      }
      i := i + 1;
    }
    assert agents[..i] == agents;
  }

  /** `GET /catalog/agents`: the catalogue over `list_agents(include_archived=False)`. */
  method PublicAgents(store: AgentManager.AgentStore, q: Option<string>, limit: int) returns (out: seq<Entry>)
    ensures out == PublicAgentsOf(AgentManager.Listed(store.rows, false), q, limit)
  {
    var agents := store.ListAgents(false);
    out := PublicAgentsFrom(agents, q, limit);
  }

  /** No archived agent ever reaches the public catalogue. */
  lemma PublicAgentsNotArchived(rows: seq<AgentManager.AgentRow>, q: Option<string>, limit: int)
    ensures forall e :: e in PublicAgentsOf(AgentManager.Listed(rows, false), q, limit) ==>
      exists a :: a in AgentManager.Listed(rows, false) && a.status != Archived && e == EntryOf(a)
  {
    var agents := AgentManager.Listed(rows, false);
    PublicAgentsMeaning(agents, q, limit);
    AgentManager.ListedNotArchived(rows);
  }
}
