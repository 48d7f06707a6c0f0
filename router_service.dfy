/** `handle_agent_message` of app/services/router_service.py: the add-service
    wizard, a linear state machine over the chat's session, its start commands,
    and the hand-over to the service agent. The backend's `create_service` and
    the service agent's `handle_message` are calls into code outside this model:
    they are parameters, each answering a value or raising. */
module RouterService {
  import opened PyText
  import opened PyRegex
  import opened JsonValue
  import opened Oracles
  import opened SessionStore
  import opened RouterText

  /** What one message does to the chat's session. */
  datatype Effect = Keep | Clear | Update(data: map<string, Json>)

  /** The returned dictionary: `handled`, `reply` and `meta`. */
  datatype Reply = Reply(handled: bool, reply: Json, meta: map<string, Json>)

  /** The service creator: user id and form in, a value or an exception out. */
  type Creator = (string, map<string, Json>) -> Outcome<Json>

  /** The service agent: user id and text in, `(handled, answer)` or an
      exception out. */
  type ServiceAgent = (string, string) -> Outcome<(Json, Json)>

  /** The wizard states in order, and the form field each of them fills. */
  const States: seq<string> := ["svc_create_business", "svc_create_name", "svc_create_description",
    "svc_create_category", "svc_create_pricing_model", "svc_create_currency", "svc_create_price"]
  const Fields: seq<string> := ["business_name", "name", "description", "category_name",
    "pricing_model", "currency", "base_price"]
  /** The question asked after each of the first six steps. */
  const Prompts: seq<string> := ["What’s the **Service Name**?", "Add a short **Description**.",
    "Which **Category**? (e.g., food, tech)", "Choose **Pricing Model**: `flat` or `time-based`.",
    "Currency code? (e.g., **USD**, **NPR**)", "What’s the **Base Price**? (number)"]

  const StartCommands: set<string> := {"/add_service", "/add", "/service_add", "/new"}
  const CancelWords: set<string> := {"cancel", "/cancel"}
  const PricingWords: set<string> := {"flat", "time based", "time-based"}
  const StartPrompt := "Let’s add a new service. What’s the **Business Name**?"
  const CancelText := "Cancelled the add-service flow. Type `/add_service` to start again."
  const PricingPrompt := "Please enter `flat` or `time-based`."
  const PricePrompt := "Please enter a valid number for Base Price."
  const Created := "Service created."

  /** The first position of `x` in `xs`. */
  function IndexIn(xs: seq<string>, x: string): (r: Option<nat>)
    ensures r.Some? ==> r.value < |xs| && xs[r.value] == x && forall j :: 0 <= j < r.value ==> xs[j] != x
    ensures r.None? ==> x !in xs
  {
    if xs == [] then None
    else if xs[0] == x then Some(0)
    else match IndexIn(xs[1..], x)
      case None => None
      case Some(k) => Some(k + 1)
  }

  /** Which wizard step a session state names, if any. */
  function StateIndex(state: Json): (r: Option<nat>)
    ensures r.Some? ==> r.value < 7 && state == JStr(States[r.value])
    ensures r.None? ==> forall k :: 0 <= k < 7 ==> state != JStr(States[k])
  {
    if state.JStr? then IndexIn(States, state.s) else None
  }

  // ----------------------------------------------------- the add pattern

  const AddVerbs: seq<string> := ["add", "create", "new"]
  const GlueVerbs: seq<string> := ["add", "create"]
  const ServiceNouns: seq<string> := ["service", "services"]

  /** `(service|services)\b` at `j`. */
  predicate NounAt(t: string, j: nat) {
    exists n :: n in ServiceNouns && OccursAt(t, n, j) && IsBoundary(t, j + |n|)
  }

  /** `\b(add|create|new)\s*(service|services)\b` at `i`. The whitespace run is
      taken whole: giving back any of it would leave a space where the noun's
      first letter must be. */
  predicate AddAt(t: string, i: nat) {
    IsBoundary(t, i) && exists v :: v in AddVerbs && OccursAt(t, v, i) && NounAt(t, SpaceRun(t, i + |v|))
  }

  /** `\b(add|create)(service|services)\b` at `i`. */
  predicate GlueAt(t: string, i: nat) {
    IsBoundary(t, i) && exists v :: v in GlueVerbs && OccursAt(t, v, i) && NounAt(t, i + |v|)
  }

  /** `add_re.search(t) or add_glue_re.search(t)`; `t` is already lowercase, so
      IGNORECASE changes nothing. */
  predicate AddRequested(t: string) {
    (exists i :: 0 <= i <= |t| && AddAt(t, i)) || (exists i :: 0 <= i <= |t| && GlueAt(t, i))
  }

  // ----------------------------------------------------------- the replies

  /** The reply names the agent it answers for. */
  predicate Tagged(rep: Reply, agent: string) {
    "agent_id" in rep.meta && rep.meta["agent_id"] == JStr(agent)
  }

  /** The reply passes the turn back to the general model. */
  predicate LlmMode(rep: Reply) {
    "mode" in rep.meta && rep.meta["mode"] == JStr("llm")
  }

  function Guided(agent: string, text: string): (r: Reply)
    ensures r.handled && Tagged(r, agent)
  {
    Reply(true, JStr(text), map["agent_id" := JStr(agent), "intent" := JStr("add_service"), "mode" := JStr("guided")])
  }

  function CancelReply(agent: string): (r: Reply)
    ensures r.handled && Tagged(r, agent)
  {
    Reply(true, JStr(CancelText), map["agent_id" := JStr(agent), "intent" := JStr("cancel_add_service")])
  }

  /** The reply after a successful `create_service`: the result when it is
      text, "Service created." otherwise. */
  function SubmitReply(agent: string, result: Json): (r: Reply)
    ensures r.handled && Tagged(r, agent)
  {
    Reply(true, if result.JStr? then result else JStr(Created),
          map["agent_id" := JStr(agent), "intent" := JStr("add_service"), "mode" := JStr("submit")])
  }

  function CreateFailedReply(agent: string, e: string): (r: Reply)
    ensures r.handled && Tagged(r, agent)
  {
    Reply(true, JStr("Something went wrong creating the service: " + e),
          map["agent_id" := JStr(agent), "intent" := JStr("add_service"), "error" := JStr(e)])
  }

  /** The service agent's answer, or its exception as a reply. */
  function AgentReply(agent: string, answer: Outcome<(Json, Json)>): (r: Reply)
    ensures Tagged(r, agent)
    ensures !r.handled ==> answer.Ok? && !Truthy(answer.value.0) && LlmMode(r)
  {
    match answer
    case Raises(e) => Reply(true, JStr("[router_service error] " + e), map["agent_id" := JStr(agent), "error" := JStr(e)])
    case Ok((h, a)) => Reply(Truthy(h), Or(a, JStr("")), map["agent_id" := JStr(agent), "mode" := JStr("llm")])
  }

  // ------------------------------------------------------------ the wizard

  /** Storing the filled form and moving to the next state. */
  function Advance(k: nat, form: map<string, Json>): Effect
    requires k < 6
  {
    Update(map["state" := JStr(States[k + 1]), "svc_form" := JObj(form)])
  }

  /** `form[key] = value`, which raises unless the form is a dictionary. */
  function Assign(form: Json, key: string, value: Json): Outcome<map<string, Json>> {
    if form.JObj? then Ok(form.o[key := value]) else Raises("object does not support item assignment")
  }

  /** The value step `k` stores: the pricing model chosen, the currency code
      stripped and uppercased, or the text as given. */
  function FieldValue(k: nat, raw: string, norm: string): Json {
    if k == 4 then JStr(if Has(norm, "time") then "time_based" else "flat")
    else if k == 5 then JStr(UpperStr(Strip(raw)))
    else JStr(raw)
  }

  /** The answer to step `k` of the wizard with the stored form `form`, the
      stripped text `raw` and its normalised form `norm`. */
  function WizardStep(k: nat, form: Json, raw: string, norm: string, user: string, agent: string, create: Creator): (r: Outcome<(Effect, Reply)>)
    requires k < 7
    ensures r.Ok? ==> r.value.1.handled && Tagged(r.value.1, agent)
    ensures r.Raises? ==> !form.JObj?
  {
    if k < 6 then FieldStep(k, form, raw, norm, agent)
    else PriceStep(form, PriceOf(raw), user, agent, create)
  }

  /** The first six steps: the business name starts a new form, the others
      store their field in the stored one; an unknown pricing model asks
      again. */
  function FieldStep(k: nat, form: Json, raw: string, norm: string, agent: string): (r: Outcome<(Effect, Reply)>)
    requires k < 6
    ensures r.Ok? ==> r.value.1.handled && Tagged(r.value.1, agent)
    ensures r.Raises? ==> !form.JObj?
  {
    if k == 0 then Ok((Advance(0, map["business_name" := JStr(raw)]), Guided(agent, Prompts[0])))
    else if k == 4 && norm !in PricingWords then Ok((Keep, Guided(agent, PricingPrompt)))
    else
      match Assign(form, Fields[k], FieldValue(k, raw, norm))
      case Raises(e) => Raises(e)
      case Ok(f) => Ok((Advance(k, f), Guided(agent, Prompts[k])))
  }

  /** `float(t_raw.replace(",", "").strip())`, or None where it raises. */
  function PriceOf(raw: string): Option<real> {
    ParseDecimal(Strip(RemoveChar(raw, ',')))
  }

  /** The last step: the price with its commas removed, then the service
      created; the state is cleared whether creation succeeds or raises. A bad
      number, or a form that cannot take it, asks again. */
  function PriceStep(form: Json, price: Option<real>, user: string, agent: string, create: Creator): (r: Outcome<(Effect, Reply)>)
    ensures r.Ok? && r.value.1.handled && Tagged(r.value.1, agent)
  {
    match price
    case None => Ok((Keep, Guided(agent, PricePrompt)))
    case Some(v) =>
      match Assign(form, "base_price", JNum(v))
      case Raises(_) => Ok((Keep, Guided(agent, PricePrompt)))
      case Ok(f) =>
        match create(user, f)
        case Raises(e) => Ok((Clear, CreateFailedReply(agent, e)))
        case Ok(result) => Ok((Clear, SubmitReply(agent, result)))
  }

  /** The agent id used: the given one unless it is missing or empty. */
  function AgentOf(agentArg: Option<string>, defaultAgent: string): string {
    if agentArg.Some? && agentArg.value != [] then agentArg.value else defaultAgent
  }

  /** `state.startswith("svc_create_") and t_norm in {"cancel", "/cancel"}`
      for a truthy text state. */
  predicate CancelRequested(state: Json, norm: string) {
    state.JStr? && state.s != [] && StartsWith(state.s, "svc_create_") && norm in CancelWords
  }

  /** The answer outside the wizard: a start command or an add request opens
      it with an empty form; anything else goes to the service agent. */
  function Outside(raw: string, norm: string, user: string, agent: string, serviceAgent: ServiceAgent): (r: (Effect, Reply))
    ensures Tagged(r.1, agent)
    ensures !r.1.handled ==> r.0 == Keep && LlmMode(r.1)
  {
    if raw in StartCommands || AddRequested(norm) then
      (Update(map["state" := JStr(States[0]), "svc_form" := JObj(map[])]), Guided(agent, StartPrompt))
    else (Keep, AgentReply(agent, serviceAgent(user, raw)))
  }

  /** The answer to the stripped text `raw`, normalised as `norm`, from agent
      `agent` on the chat's session `session`. */
  function Answer(session: map<string, Json>, user: string, raw: string, norm: string, agent: string,
                  create: Creator, serviceAgent: ServiceAgent): (r: Outcome<(Effect, Reply)>)
    ensures r.Ok? ==> Tagged(r.value.1, agent)
    ensures r.Ok? && !r.value.1.handled ==> r.value.0 == Keep && LlmMode(r.value.1)
    ensures r.Raises? ==>
      var state := Get(session, "state");
      (Truthy(state) && !state.JStr?) || (StateIndex(state).Some? && !GetOr(session, "svc_form", JObj(map[])).JObj?)
  {
    var state := Get(session, "state");
    if Truthy(state) && !state.JStr? then Raises("object has no attribute 'startswith'")
    else if CancelRequested(state, norm) then Ok((Clear, CancelReply(agent)))
    else if StateIndex(state).Some? then
      WizardStep(StateIndex(state).value, GetOr(session, "svc_form", JObj(map[])), raw, norm, user, agent, create)
    else Ok(Outside(raw, norm, user, agent, serviceAgent))
  }

  /** `handle_agent_message` on the chat's session `session`: the change to
      the session and the reply, or the exception raised. */
  function Handle(session: map<string, Json>, user: string, text: Option<string>, agentArg: Option<string>,
                  defaultAgent: string, create: Creator, serviceAgent: ServiceAgent): (r: Outcome<(Effect, Reply)>)
    ensures r.Ok? ==> Tagged(r.value.1, AgentOf(agentArg, defaultAgent))
    ensures r.Ok? && !r.value.1.handled ==> r.value.0 == Keep && LlmMode(r.value.1)
    ensures r.Raises? ==>
      var state := Get(session, "state");
      (Truthy(state) && !state.JStr?) || (StateIndex(state).Some? && !GetOr(session, "svc_form", JObj(map[])).JObj?)
  {
    var raw := Strip(if text.Some? then text.value else "");
    Answer(session, user, raw, NormalizeText(raw), AgentOf(agentArg, defaultAgent), create, serviceAgent)
  }

  /** The reply, or the exception, of an answer. */
  function ReplyOf(h: Outcome<(Effect, Reply)>): Outcome<Reply> {
    match h
    case Ok((_, reply)) => Ok(reply)
    case Raises(e) => Raises(e)
  }

  /** The sessions after an answer on one chat: an exception changes nothing. */
  function After(d: Sessions, chat: string, h: Outcome<(Effect, Reply)>): Sessions {
    match h
    case Ok((e, _)) => Applied(d, chat, e)
    case Raises(_) => d
  }

  /** The sessions after an effect on one chat. */
  function Applied(d: Sessions, chat: string, e: Effect): Sessions {
    match e
    case Keep => d
    case Clear => ClearedState(d, chat)
    case Update(data) => Merged(d, chat, data)
  }

  /** `handle_agent_message(chat_id, user_id, text, agent_id)` on the store. */
  method HandleAgentMessage(store: Store, chat: string, user: string, text: Option<string>, agentArg: Option<string>,
                            defaultAgent: string, create: Creator, serviceAgent: ServiceAgent) returns (r: Outcome<Reply>)
    modifies store
    ensures var h := Handle(old(SessionOf(store.sessions, chat)), user, text, agentArg, defaultAgent, create, serviceAgent);
      r == ReplyOf(h) && store.sessions == After(old(store.sessions), chat, h)
  {
    var agent := AgentOf(agentArg, defaultAgent);
    var raw := Strip(if text.Some? then text.value else "");
    var norm := NormalizeText(raw);
    r := AnswerOn(store, chat, user, raw, norm, agent, create, serviceAgent);
  }

  /** The body of `handle_agent_message` once the text is stripped and
      normalised. */
  method AnswerOn(store: Store, chat: string, user: string, raw: string, norm: string, agent: string,
                  create: Creator, serviceAgent: ServiceAgent) returns (r: Outcome<Reply>)
    modifies store
    ensures var h := Answer(old(SessionOf(store.sessions, chat)), user, raw, norm, agent, create, serviceAgent);
      r == ReplyOf(h) && store.sessions == After(old(store.sessions), chat, h)
  {
    var session := store.GetSession(chat);
    var state := Get(session, "state");
    var form := GetOr(session, "svc_form", JObj(map[]));
    if Truthy(state) && !state.JStr? {
      return Raises("object has no attribute 'startswith'");
    }
    if CancelRequested(state, norm) {
      store.ClearSessionState(chat);
      return Ok(CancelReply(agent));
    }
    var k := StateIndex(state);
    if k.Some? {
      r := WizardStepOn(store, chat, k.value, form, raw, norm, user, agent, create);
      return;
    }
    var (effect, reply) := Outside(raw, norm, user, agent, serviceAgent);
    if effect.Update? {
      store.UpdateSession(chat, effect.data);
    }
    r := Ok(reply);
  }

  /** One wizard step on the store: the form filled in place, then the session
      updated or cleared. */
  method WizardStepOn(store: Store, chat: string, k: nat, form: Json, raw: string, norm: string, user: string,
                      agent: string, create: Creator) returns (r: Outcome<Reply>)
    requires k < 7
    modifies store
    ensures var h := WizardStep(k, form, raw, norm, user, agent, create);
      r == ReplyOf(h) && store.sessions == After(old(store.sessions), chat, h)
  {
    if k == 6 {
      r := PriceStepOn(store, chat, form, PriceOf(raw), user, agent, create);
    } else {
      r := FieldStepOn(store, chat, k, form, raw, norm, agent);
    }
  }

  /** One of the first six steps on the store. */
  method FieldStepOn(store: Store, chat: string, k: nat, form: Json, raw: string, norm: string, agent: string)
    returns (r: Outcome<Reply>)
    requires k < 6
    modifies store
    ensures var h := FieldStep(k, form, raw, norm, agent);
      r == ReplyOf(h) && store.sessions == After(old(store.sessions), chat, h)
  {
    var newForm: map<string, Json>;
    if k == 0 {
      newForm := map["business_name" := JStr(raw)];
    } else {
      if k == 4 && norm !in PricingWords {
        return Ok(Guided(agent, PricingPrompt));
      }
      if !form.JObj? {
        return Raises("object does not support item assignment");
      }
      newForm := form.o[Fields[k] := FieldValue(k, raw, norm)];
    }
    assert FieldStep(k, form, raw, norm, agent) == Ok((Advance(k, newForm), Guided(agent, Prompts[k])));
    store.UpdateSession(chat, map["state" := JStr(States[k + 1]), "svc_form" := JObj(newForm)]);
    return Ok(Guided(agent, Prompts[k]));
  }

  /** The price step on the store. */
  method PriceStepOn(store: Store, chat: string, form: Json, price: Option<real>, user: string, agent: string, create: Creator)
    returns (r: Outcome<Reply>)
    modifies store
    ensures var h := PriceStep(form, price, user, agent, create);
      r == ReplyOf(h) && store.sessions == After(old(store.sessions), chat, h)
  {
    if price.None? || !form.JObj? {
      assert PriceStep(form, price, user, agent, create) == Ok((Keep, Guided(agent, PricePrompt)));
      return Ok(Guided(agent, PricePrompt));
    }
    var filled := form.o["base_price" := JNum(price.value)];
    var result := create(user, filled);
    ghost var before := store.sessions;
    store.ClearSessionState(chat);
    if result.Raises? {
      assert PriceStep(form, price, user, agent, create) == Ok((Clear, CreateFailedReply(agent, result.error)));
      return Ok(CreateFailedReply(agent, result.error));
    }
    assert PriceStep(form, price, user, agent, create) == Ok((Clear, SubmitReply(agent, result.value)));
    return Ok(SubmitReply(agent, result.value));
  }

  // ------------------------------------------------------------- properties

  /** Each wizard state names its own step: the seven states are distinct. */
  lemma StateIndexOf(k: nat)
    requires k < 7
    ensures StateIndex(JStr(States[k])) == Some(k)
  {
    var r := StateIndex(JStr(States[k]));
    assert r.Some?;
    StatesDistinct(r.value, k);
  }

  lemma StatesDistinct(i: nat, j: nat)
    requires i < 7 && j < 7 && States[i] == States[j]
    ensures i == j
  {
  }

  /** In any wizard state, "cancel" or "/cancel" (after normalising) clears the
      state, whatever step it was. */
  lemma CancelClears(session: map<string, Json>, user: string, raw: string, norm: string, agent: string,
                     create: Creator, serviceAgent: ServiceAgent, k: nat)
    requires k < 7 && Get(session, "state") == JStr(States[k]) && norm in CancelWords
    ensures Answer(session, user, raw, norm, agent, create, serviceAgent) == Ok((Clear, CancelReply(agent)))
  {
    assert States[k][..11] == "svc_create_";
  }

  /** Outside a cancel, the wizard state `States[k]` for k < 6 stores its field
      and moves to `States[k + 1]` with the next question; the business step
      starts a fresh form holding only the business name. */
  lemma WizardAdvances(session: map<string, Json>, user: string, raw: string, norm: string, agent: string,
                       create: Creator, serviceAgent: ServiceAgent, k: nat)
    requires k < 6 && Get(session, "state") == JStr(States[k]) && norm !in CancelWords
    requires k != 4 || norm in PricingWords
    requires k == 0 || GetOr(session, "svc_form", JObj(map[])).JObj?
    ensures var form := if k == 0 then map["business_name" := JStr(raw)]
                        else GetOr(session, "svc_form", JObj(map[])).o[Fields[k] := FieldValue(k, raw, norm)];
      Answer(session, user, raw, norm, agent, create, serviceAgent)
        == Ok((Update(map["state" := JStr(States[k + 1]), "svc_form" := JObj(form)]), Guided(agent, Prompts[k])))
  {
    StateIndexOf(k);
  }

  /** A stored form that is not a dictionary makes every step after the
      business name raise, and the session is left as it was. */
  lemma WizardNeedsForm(session: map<string, Json>, user: string, raw: string, norm: string, agent: string,
                        create: Creator, serviceAgent: ServiceAgent, k: nat)
    requires 0 < k < 6 && Get(session, "state") == JStr(States[k]) && norm !in CancelWords
    requires k != 4 || norm in PricingWords
    requires !GetOr(session, "svc_form", JObj(map[])).JObj?
    ensures Answer(session, user, raw, norm, agent, create, serviceAgent).Raises?
  {
    StateIndexOf(k);
  }

  /** The pricing step stores "flat" for "flat" and "time_based" for "time
      based"; any other answer keeps the state and asks again. */
  lemma PricingChoice(form: Json, raw: string, norm: string, agent: string)
    requires form.JObj?
    ensures norm == "flat" ==>
      FieldStep(4, form, raw, norm, agent) == Ok((Advance(4, form.o["pricing_model" := JStr("flat")]), Guided(agent, Prompts[4])))
    ensures norm == "time based" ==>
      FieldStep(4, form, raw, norm, agent) == Ok((Advance(4, form.o["pricing_model" := JStr("time_based")]), Guided(agent, Prompts[4])))
    ensures norm !in PricingWords ==> FieldStep(4, form, raw, norm, agent) == Ok((Keep, Guided(agent, PricingPrompt)))
  {
    if norm == "flat" {
      AbsentChar(norm, "time", 'i');
    } else if norm == "time based" {
      assert OccursAt(norm, "time", 0);
    }
  }

  /** "time-based" is listed as a pricing answer but never reaches the step:
      normalising turns its dash into a space. */
  lemma TimeBasedUnreachable(raw: string)
    ensures NormalizeText(raw) != "time-based"
  {
    NormalizedShape(raw);
    NoDashWord(NormalizeText(raw));
  }

  lemma NoDashWord(r: string)
    requires SingleSpaced(r)
    ensures r != "time-based"
  {
    if |r| > 4 {
      assert !IsDash(r[4]);
    }
  }

  /** The currency step stores the stripped text in capitals. */
  lemma CurrencyStored(form: Json, raw: string, norm: string, agent: string)
    requires form.JObj?
    ensures FieldStep(5, form, raw, norm, agent)
      == Ok((Advance(5, form.o["currency" := JStr(UpperStr(Strip(raw)))]), Guided(agent, Prompts[5])))
  {
  }

  /** The price step: a price that does not parse keeps the state and asks
      again; once it parses, the state is cleared whether the creation raises
      or not, and a result that is not text is reported as "Service created.". */
  lemma PriceOutcomes(form: Json, price: Option<real>, user: string, agent: string, create: Creator)
    ensures price.None? ==> PriceStep(form, price, user, agent, create) == Ok((Keep, Guided(agent, PricePrompt)))
    ensures price.Some? && form.JObj? ==>
      var h := PriceStep(form, price, user, agent, create);
      var created := create(user, form.o["base_price" := JNum(price.value)]);
      && h.Ok? && h.value.0 == Clear
      && (created.Raises? ==> h.value.1 == CreateFailedReply(agent, created.error))
      && (created.Ok? && !created.value.JStr? ==> h.value.1.reply == JStr(Created))
      && (created.Ok? && created.value.JStr? ==> h.value.1.reply == created.value)
  {
  }

  /** Commas are removed before the price is read: text that is digits once
      its commas are gone ("1,500") is read as that number. */
  lemma PriceIgnoresCommas(raw: string)
    requires IsDigits(RemoveChar(raw, ','))
    ensures PriceOf(raw) == Some(DigitsValue(RemoveChar(raw, ',')) as real)
  {
    var d := RemoveChar(raw, ',');
    assert !IsSpace(d[0]) && !IsSpace(d[|d| - 1]);
    StripOfStripped(d);
    DecimalOfDigits(d);
  }

  /** Outside the wizard, a start command or an add request opens it at the
      business step with an empty form; anything else goes to the service
      agent and leaves the session alone, handled as the agent says. */
  lemma StartOrDelegate(session: map<string, Json>, user: string, raw: string, norm: string, agent: string,
                        create: Creator, serviceAgent: ServiceAgent)
    requires Get(session, "state") == JNull
    ensures raw in StartCommands || AddRequested(norm) ==>
      Answer(session, user, raw, norm, agent, create, serviceAgent)
        == Ok((Update(map["state" := JStr("svc_create_business"), "svc_form" := JObj(map[])]), Guided(agent, StartPrompt)))
    ensures !(raw in StartCommands || AddRequested(norm)) ==>
      var h := Answer(session, user, raw, norm, agent, create, serviceAgent);
      && h.Ok? && h.value.0 == Keep
      && (serviceAgent(user, raw).Ok? ==> h.value.1.handled == Truthy(serviceAgent(user, raw).value.0))
      && (serviceAgent(user, raw).Raises? ==> h.value.1.handled && "error" in h.value.1.meta)
  {
    assert StateIndex(JNull) == None;
  }

  /** The error `loop.run_until_complete` raises on a new loop while the
      caller's loop is running. */
  const NestedLoop := "Cannot run the event loop while another loop is running"

  /** The service agent as lines 157-159 reach it: `handle_agent_message` is
      a coroutine, so it runs inside a running event loop, and running a
      second loop there raises before the agent is consulted. */
  function AgentInRunningLoop(): ServiceAgent {
    (user, text) => Raises(NestedLoop)
  }

  /** Outside the wizard, every text that is not a start command or an add
      request gets the error reply, whatever it says, and the session is left
      alone. */
  lemma DelegationAlwaysFails(session: map<string, Json>, user: string, raw: string, norm: string, agent: string,
                              create: Creator)
    requires var state := Get(session, "state");
      (!Truthy(state) || state.JStr?) && !CancelRequested(state, norm) && StateIndex(state).None?
    requires !(raw in StartCommands || AddRequested(norm))
    ensures Answer(session, user, raw, norm, agent, create, AgentInRunningLoop())
      == Ok((Keep, Reply(true, JStr("[router_service error] " + NestedLoop),
                         map["agent_id" := JStr(agent), "error" := JStr(NestedLoop)])))
  {
  }

  /** "add service" is an add request. */
  lemma AddServiceRequested(t: string)
    requires t == "add service"
    ensures AddRequested(t)
  {
    assert OccursAt(t, "add", 0) && SpaceRun(t, 3) == 4;
    assert OccursAt(t, "service", 4);
    assert IsBoundary(t, 0) && IsBoundary(t, 11);
    assert NounAt(t, 4);
    assert AddAt(t, 0);
  }

  /** "addservice" is an add request through the glued pattern. */
  lemma GluedRequested(t: string)
    requires t == "addservice"
    ensures AddRequested(t)
  {
    assert OccursAt(t, "add", 0) && OccursAt(t, "service", 3);
    assert IsBoundary(t, 0) && IsBoundary(t, 10);
    assert NounAt(t, 3);
    assert GlueAt(t, 0);
  }
}
