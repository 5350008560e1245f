/**
 * gpt_api/core.py: the `GPTApi` client. Each call installs the client's key in the global
 * `openai.api_key` for its duration (`with self:`), reads a copy of a configuration updated with
 * the call's keyword arguments, and sends one request. `query`, `query_cheap` and `query_code`
 * route a query type to `complete`, `insert` or `edit`; `GPTApi.create` keeps one client per key.
 */
module GptCore {
  import opened Wrappers
  import opened PyStr
  import opened PyValues
  import opened OpenaiLib
  import opened QueryConfigs
  import opened KeyFiles
  import opened GptUtils

  /** `QueryType` */
  datatype QueryType = Complete | Insert | Edit {
    /** The member's value. */
    function Name(): string {
      match this
      case Complete => "complete"
      case Insert => "insert"
      case Edit => "edit"
    }
  }

  /** What a caller passes as `query_type`: a member, or any other value. */
  datatype TagArg = TagMember(t: QueryType) | TagValue(v: Value)

  /** `QueryType(query_type)`: a member is itself; a value must be one of the members' values. */
  function QueryTypeOf(arg: TagArg): (r: Result<QueryType>)
    ensures arg.TagMember? ==> r == Ok(arg.t)
    ensures arg.TagValue? && r.Ok? ==> arg.v == VStr(r.value.Name())
    ensures r.Err? ==> r.error == ValueError
  {
    match arg
    case TagMember(t) => Ok(t)
    case TagValue(v) =>
      if v == VStr("complete") then Ok(Complete)
      else if v == VStr("insert") then Ok(Insert)
      else if v == VStr("edit") then Ok(Edit)
      else Err(ValueError)
  }

  /** Every member's value converts back to the member; so a value converts exactly when it names one. */
  lemma QueryTypeRoundTrip(t: QueryType)
    ensures QueryTypeOf(TagValue(VStr(t.Name()))) == Ok(t)
  {
    match t
    case Complete =>
    case Insert =>
    case Edit =>
  }

  /** The pair (`_stored_api_key`, `openai.api_key`) that `with self:` saves and restores. */
  datatype Guard = Guard(stored: Option<string>, active: Option<string>)

  /** `__enter__`: refuse when a key is already stored, else store the active key and install `own`. */
  function EnterGuard(g: Guard, own: Option<string>): Result<Guard> {
    if g.stored.Some? then Err(RuntimeError) else Ok(Guard(g.active, own))
  }

  /** `__exit__`: reinstall the stored key and clear it. */
  function ExitGuard(g: Guard): Guard {
    Guard(None, g.stored)
  }

  /** A call made with no key stored runs under its own key and leaves the global key as it found it. */
  lemma EnterExitRestores(g: Guard, own: Option<string>)
    requires g.stored.None?
    ensures EnterGuard(g, own).Ok? && EnterGuard(g, own).value.active == own
    ensures ExitGuard(EnterGuard(g, own).value) == g
  {
  }

  /**
   * Entering a second time before leaving is refused exactly when the global key was set on the
   * first entry: the check looks at the stored value, and a stored `None` reads as "not in use".
   */
  lemma NestedEntryDetection(g: Guard, own: Option<string>)
    requires g.stored.None?
    ensures EnterGuard(g, own).Ok?
    ensures EnterGuard(EnterGuard(g, own).value, own).Err? <==> g.active.Some?
  {
  }

  /** `INSERT_TOKEN` */
  const InsertToken: string := "[insert]"

  /** The configuration a call reads: `DEFAULT_QUERY_CONFIG` when `config` is None. */
  function Chosen(config: QueryConfig?, default: QueryConfig): QueryConfig {
    if config == null then default else config
  }

  /** The `Completion.create` request of `complete`: the `model` argument, fields from the updated copy. */
  function CompleteRequest(prompt: string, model: Value, attrs: Kwargs, kw: Kwargs): Request
    requires DeclaredFields <= attrs.Keys
  {
    CompletionCreate(model, prompt, RequestParams(Merge(attrs, kw)))
  }

  /** The `Edit.create` request of `edit`: the prompt is the input. */
  function EditRequest(prompt: string, instruction: Value, model: Value, attrs: Kwargs, kw: Kwargs): Request
    requires DeclaredFields <= attrs.Keys
  {
    EditCreate(model, prompt, instruction, RequestParams(Merge(attrs, kw)))
  }

  /** `insert`: ValueError unless the marker occurs exactly once, then the request of `complete`. */
  function InsertRequest(prompt: string, model: Value, attrs: Kwargs, kw: Kwargs): (r: Result<Request>)
    requires DeclaredFields <= attrs.Keys
    ensures r.Ok? <==> Count(prompt, InsertToken) == 1
    ensures r.Ok? ==> r.value == CompleteRequest(prompt, model, attrs, kw)
    ensures r.Err? ==> r.error == ValueError
  {
    if Count(prompt, InsertToken) != 1 then Err(ValueError) else Ok(CompleteRequest(prompt, model, attrs, kw))
  }

  /** The model `complete`, `insert` and `edit` default to, and the ones `query_cheap` and `query_code` force. */
  datatype Tier = Standard | Cheap | Code

  function TierModel(tier: Tier, t: QueryType): Value {
    match (tier, t)
    case (Cheap, Complete) => VStr("text-curie-001")
    case (Code, Complete) => VStr("code-davinci-002")
    case (Code, Insert) => VStr("code-davinci-002")
    case (Code, Edit) => VStr("code-davinci-edit-001")
    case (Standard, Complete) => VStr("text-davinci-003")
    case (_, Insert) => VStr("text-davinci-insert-002")
    case (_, Edit) => VStr("text-davinci-edit-001")
  }

  /** The arguments the endpoint method of a query type receives. */
  datatype Plan = Plan(model: Value, instruction: Value, rest: Kwargs)

  /**
   * How `query` (`Standard`), `query_cheap` or `query_code` hands its keywords to the endpoint
   * method: `query` lets a `model` keyword bind to the endpoint's parameter, the other two pass
   * `model=` themselves, so a `model` keyword is a duplicate (TypeError); `edit` needs its
   * `instruction` from the keywords (TypeError when missing).
   */
  function Route(tier: Tier, t: QueryType, kw: Kwargs): (r: Result<Plan>)
    ensures r.Err? <==> (tier != Standard && "model" in kw) || (t == Edit && "instruction" !in kw)
    ensures r.Err? ==> r.error == TypeError
    ensures r.Ok? ==> r.value.model == (if "model" in kw then kw["model"] else TierModel(tier, t))
    ensures r.Ok? ==> r.value.rest == kw - {"model"} - (if t == Edit then {"instruction"} else {})
    ensures r.Ok? && t == Edit ==> r.value.instruction == kw["instruction"]
  {
    var passed := if tier == Standard then Ok(kw) else PassKeyword(kw, "model", TierModel(tier, t));
    if passed.Err? then Err(passed.error)
    else if t == Edit && "instruction" !in kw then Err(TypeError)
    else
      var bound := Bind(passed.value, "model", TierModel(tier, t));
      if t == Edit then Ok(Plan(bound.0, kw["instruction"], bound.1 - {"instruction"}))
      else Ok(Plan(bound.0, VNone, bound.1))
  }

  /** The request `query`, `query_cheap` or `query_code` sends for `query_type = tag`, or the error raised first. */
  function QueryRequest(tier: Tier, tag: TagArg, prompt: string, attrs: Kwargs, kw: Kwargs): Result<Request>
    requires DeclaredFields <= attrs.Keys
  {
    match QueryTypeOf(tag)
    case Err(e) => Err(e)
    case Ok(t) =>
      match Route(tier, t, kw)
      case Err(e) => Err(e)
      case Ok(p) =>
        match t
        case Complete => Ok(CompleteRequest(prompt, p.model, attrs, p.rest))
        case Insert => InsertRequest(prompt, p.model, attrs, p.rest)
        case Edit => Ok(EditRequest(prompt, p.instruction, p.model, attrs, p.rest))
  }

  /** The model of a request to a text endpoint (`None` for the engine listing). */
  function RequestModel(q: Request): Option<Value> {
    match q
    case CompletionCreate(model, _, _) => Some(model)
    case EditCreate(model, _, _, _) => Some(model)
    case EngineList => None
  }

  /**
   * `query_cheap` and `query_code` always send their fixed model for the query type, and a
   * caller's `model` keyword is refused rather than obeyed.
   */
  lemma ForcedModel(tier: Tier, t: QueryType, prompt: string, attrs: Kwargs, kw: Kwargs)
    requires tier != Standard && DeclaredFields <= attrs.Keys
    ensures "model" in kw ==> QueryRequest(tier, TagMember(t), prompt, attrs, kw) == Err(TypeError)
    ensures QueryRequest(tier, TagMember(t), prompt, attrs, kw).Ok? ==>
      RequestModel(QueryRequest(tier, TagMember(t), prompt, attrs, kw).value) == Some(TierModel(tier, t))
  {
  }

  /** `query` sends the caller's `model` keyword when there is one, and the endpoint's default otherwise. */
  lemma QueryModelOverride(t: QueryType, prompt: string, attrs: Kwargs, kw: Kwargs)
    requires DeclaredFields <= attrs.Keys
    ensures QueryRequest(Standard, TagMember(t), prompt, attrs, kw).Ok? ==>
      RequestModel(QueryRequest(Standard, TagMember(t), prompt, attrs, kw).value)
        == Some(if "model" in kw then kw["model"] else TierModel(Standard, t))
  {
  }

  /**
   * A field given as a keyword to any of the query routes reaches the request's parameters;
   * every other field is the configuration's.
   */
  lemma QueryFieldOverride(tier: Tier, t: QueryType, prompt: string, attrs: Kwargs, kw: Kwargs, name: string)
    requires DeclaredFields <= attrs.Keys && name in DeclaredFields - {"model"}
    ensures var q := QueryRequest(tier, TagMember(t), prompt, attrs, kw);
      q.Ok? ==> !q.value.EngineList? && ParamField(q.value.params, name) == if name in kw then kw[name] else attrs[name]
  {
    var plan := Route(tier, t, kw);
    if plan.Ok? {
      OverrideReachesRequest(attrs, plan.value.rest, name);
    }
  }

  /** Every route to `edit` fails with TypeError when the keywords carry no instruction. */
  lemma EditNeedsInstruction(tier: Tier, prompt: string, attrs: Kwargs, kw: Kwargs)
    requires DeclaredFields <= attrs.Keys && "instruction" !in kw
    ensures QueryRequest(tier, TagMember(Edit), prompt, attrs, kw) == Err(TypeError)
  {
  }

  /** `[insert]` cannot overlap itself, so `count` counts its positions. */
  lemma InsertTokenNoSelfOverlap()
    ensures NoSelfOverlap(InsertToken)
  {
    assert InsertToken[1..] == "insert]";
  }

  /** A prompt holding the marker at one position only is accepted by `insert`. */
  lemma InsertOneMarker(prompt: string, i: nat, model: Value, attrs: Kwargs, kw: Kwargs)
    requires OccursOnlyAt(prompt, InsertToken, i) && DeclaredFields <= attrs.Keys
    ensures InsertRequest(prompt, model, attrs, kw) == Ok(CompleteRequest(prompt, model, attrs, kw))
  {
    CountOnlyOccurrence(prompt, InsertToken, i);
  }

  /** A prompt without the marker is refused by `insert` before anything is sent. */
  lemma InsertNoMarker(prompt: string, model: Value, attrs: Kwargs, kw: Kwargs)
    requires !Contains(prompt, InsertToken) && DeclaredFields <= attrs.Keys
    ensures InsertRequest(prompt, model, attrs, kw) == Err(ValueError)
  {
    CountZeroIffAbsent(prompt, InsertToken);
  }

  /** A prompt holding the marker at two different positions is refused by `insert`. */
  lemma InsertTwoMarkers(prompt: string, i: nat, j: nat, model: Value, attrs: Kwargs, kw: Kwargs)
    requires i != j && OccursAt(prompt, InsertToken, i) && OccursAt(prompt, InsertToken, j)
    requires DeclaredFields <= attrs.Keys
    ensures InsertRequest(prompt, model, attrs, kw) == Err(ValueError)
  {
    InsertTokenNoSelfOverlap();
    if i < j {
      CountTwoOccurrences(prompt, InsertToken, i, j);
    } else {
      CountTwoOccurrences(prompt, InsertToken, j, i);
    }
  }

  /** `insert` accepts a prompt exactly when the marker occurs at one position only. */
  lemma InsertAcceptsIffOneMarker(prompt: string, model: Value, attrs: Kwargs, kw: Kwargs)
    requires DeclaredFields <= attrs.Keys
    ensures InsertRequest(prompt, model, attrs, kw).Ok? <==> exists i: nat :: OccursOnlyAt(prompt, InsertToken, i)
  {
    InsertTokenNoSelfOverlap();
    CountOneIffOnlyOccurrence(prompt, InsertToken);
  }

  /**
   * The configuration's `model` attribute never reaches a request of `complete` or `edit`: two
   * configurations that agree on every other attribute yield the same request.
   */
  lemma ConfigModelIgnored(prompt: string, model: Value, attrs1: Kwargs, attrs2: Kwargs, kw: Kwargs)
    requires DeclaredFields <= attrs1.Keys && DeclaredFields <= attrs2.Keys
    requires attrs1 - {"model"} == attrs2 - {"model"}
    ensures CompleteRequest(prompt, model, attrs1, kw) == CompleteRequest(prompt, model, attrs2, kw)
    ensures forall instruction :: EditRequest(prompt, instruction, model, attrs1, kw) == EditRequest(prompt, instruction, model, attrs2, kw)
  {
    forall name | name in DeclaredFields - {"model"}
      ensures Merge(attrs1, kw)[name] == Merge(attrs2, kw)[name]
    {
      assert name in attrs1 - {"model"};
      assert (attrs1 - {"model"})[name] == attrs1[name];
      assert (attrs2 - {"model"})[name] == attrs2[name];
    }
  }

  class GPTApi {
    /** `self.api_key` */
    const apiKey: Option<string>
    /** `self._stored_api_key` */
    var storedApiKey: Option<string>

    /** `GPTApi(api_key)` once the key is settled (see `NewClient`). */
    constructor (apiKey: Option<string>)
      ensures this.apiKey == apiKey && storedApiKey == None
    {
      this.apiKey := apiKey;
      storedApiKey := None;
    }

    /** `__enter__` */
    method Enter(lib: Library) returns (r: Result<()>)
      modifies this, lib`apiKey
      ensures var g := EnterGuard(Guard(old(storedApiKey), old(lib.apiKey)), apiKey);
        if g.Ok? then r.Ok? && Guard(storedApiKey, lib.apiKey) == g.value
        else r == Err(g.error) && storedApiKey == old(storedApiKey) && lib.apiKey == old(lib.apiKey)
    {
      if storedApiKey.Some? {
        return Err(RuntimeError);
      }
      storedApiKey := lib.apiKey;
      lib.apiKey := apiKey;
      return Ok(());
    }

    /** `__exit__` */
    method Exit(lib: Library)
      modifies this, lib`apiKey
      ensures Guard(storedApiKey, lib.apiKey) == ExitGuard(Guard(old(storedApiKey), old(lib.apiKey)))
    {
      lib.apiKey := storedApiKey;
      storedApiKey := None;
    }

    /**
     * The outcome of a call that sends `req` inside `with self:`, from the state (`stored0`,
     * `active0`, `calls0`): an error found before entering changes nothing; entering while a key
     * is stored raises RuntimeError and changes nothing; otherwise exactly one call is made under
     * this client's key, and on the way out the global key and the guard are as they were.
     */
    ghost predicate Performed(lib: Library, req: Result<Request>, r: Result<string>,
                              stored0: Option<string>, active0: Option<string>, calls0: seq<Call>)
      reads this, lib
    {
      match req
      case Err(e) =>
        r == Err(e) && storedApiKey == stored0 && lib.apiKey == active0 && lib.calls == calls0
      case Ok(q) =>
        if stored0.Some? then
          r == Err(RuntimeError) && storedApiKey == stored0 && lib.apiKey == active0 && lib.calls == calls0
        else
          storedApiKey == None && lib.apiKey == active0 && lib.calls == calls0 + [Call(apiKey, q)]
          && r == FirstText(lib.respond(Call(apiKey, q)))
    }

    /** `complete(prompt, config, model, **kw)`; the caller's configuration is only read. */
    method Complete(lib: Library, default: QueryConfig, prompt: string, config: QueryConfig?, model: Value, kw: Kwargs)
      returns (r: Result<string>)
      requires default.Valid() && (config != null ==> config.Valid())
      requires kw.Keys !! {"self", "prompt", "config", "model"}
      modifies this, lib
      ensures Performed(lib, Ok(CompleteRequest(prompt, model, Chosen(config, default).attrs, kw)), r,
                        old(storedApiKey), old(lib.apiKey), old(lib.calls))
    {
      var entered := Enter(lib);
      if entered.Err? {
        return Err(entered.error);
      }
      var chosen := if config == null then default else config;
      var copied := chosen.Copy();
      copied.Update(kw);
      var reply := lib.Send(CompletionCreate(model, prompt, RequestParams(copied.attrs)));
      r := FirstText(reply);
      Exit(lib);
    }

    /** `edit(prompt, instruction, config, model, **kw)` */
    method Edit(lib: Library, default: QueryConfig, prompt: string, instruction: Value, config: QueryConfig?, model: Value, kw: Kwargs)
      returns (r: Result<string>)
      requires default.Valid() && (config != null ==> config.Valid())
      requires kw.Keys !! {"self", "prompt", "instruction", "config", "model"}
      modifies this, lib
      ensures Performed(lib, Ok(EditRequest(prompt, instruction, model, Chosen(config, default).attrs, kw)), r,
                        old(storedApiKey), old(lib.apiKey), old(lib.calls))
    {
      var entered := Enter(lib);
      if entered.Err? {
        return Err(entered.error);
      }
      var chosen := if config == null then default else config;
      var copied := chosen.Copy();
      copied.Update(kw);
      var reply := lib.Send(EditCreate(model, prompt, instruction, RequestParams(copied.attrs)));
      r := FirstText(reply);
      Exit(lib);
    }

    /** `insert(prompt, model, config, **kw)`: the marker check comes before the guard. */
    method Insert(lib: Library, default: QueryConfig, prompt: string, model: Value, config: QueryConfig?, kw: Kwargs)
      returns (r: Result<string>)
      requires default.Valid() && (config != null ==> config.Valid())
      requires kw.Keys !! {"self", "prompt", "model", "config"}
      modifies this, lib
      ensures Performed(lib, InsertRequest(prompt, model, Chosen(config, default).attrs, kw), r,
                        old(storedApiKey), old(lib.apiKey), old(lib.calls))
    {
      if Count(prompt, InsertToken) != 1 {
        return Err(ValueError);
      }
      r := Complete(lib, default, prompt, config, model, kw);
    }

    /** The body shared by `query`, `query_cheap` and `query_code`, for the given tier. */
    method Dispatch(tier: Tier, lib: Library, default: QueryConfig, prompt: string, config: QueryConfig?, tag: TagArg, kw: Kwargs)
      returns (r: Result<string>)
      requires default.Valid() && (config != null ==> config.Valid())
      requires kw.Keys !! {"self", "prompt", "config", "query_type"}
      modifies this, lib
      ensures Performed(lib, QueryRequest(tier, tag, prompt, Chosen(config, default).attrs, kw), r,
                        old(storedApiKey), old(lib.apiKey), old(lib.calls))
    {
      var t := QueryTypeOf(tag);
      if t.Err? {
        return Err(t.error);
      }
      var plan := Route(tier, t.value, kw);
      if plan.Err? {
        return Err(plan.error);
      }
      var p := plan.value;
      match t.value
      case Complete =>
        r := Complete(lib, default, prompt, config, p.model, p.rest);
      case Insert =>
        r := Insert(lib, default, prompt, p.model, config, p.rest);
      case Edit =>
        r := Edit(lib, default, prompt, p.instruction, config, p.model, p.rest);
    }

    /** `query(prompt, config, query_type, **kw)` */
    method Query(lib: Library, default: QueryConfig, prompt: string, config: QueryConfig?, tag: TagArg, kw: Kwargs)
      returns (r: Result<string>)
      requires default.Valid() && (config != null ==> config.Valid())
      requires kw.Keys !! {"self", "prompt", "config", "query_type"}
      modifies this, lib
      ensures Performed(lib, QueryRequest(Standard, tag, prompt, Chosen(config, default).attrs, kw), r,
                        old(storedApiKey), old(lib.apiKey), old(lib.calls))
    {
      r := Dispatch(Standard, lib, default, prompt, config, tag, kw);
    }

    /** `query_cheap(prompt, config, query_type, **kw)` */
    method QueryCheap(lib: Library, default: QueryConfig, prompt: string, config: QueryConfig?, tag: TagArg, kw: Kwargs)
      returns (r: Result<string>)
      requires default.Valid() && (config != null ==> config.Valid())
      requires kw.Keys !! {"self", "prompt", "config", "query_type"}
      modifies this, lib
      ensures Performed(lib, QueryRequest(Cheap, tag, prompt, Chosen(config, default).attrs, kw), r,
                        old(storedApiKey), old(lib.apiKey), old(lib.calls))
    {
      r := Dispatch(Cheap, lib, default, prompt, config, tag, kw);
    }

    /** `query_code(prompt, config, query_type, **kw)` */
    method QueryCode(lib: Library, default: QueryConfig, prompt: string, config: QueryConfig?, tag: TagArg, kw: Kwargs)
      returns (r: Result<string>)
      requires default.Valid() && (config != null ==> config.Valid())
      requires kw.Keys !! {"self", "prompt", "config", "query_type"}
      modifies this, lib
      ensures Performed(lib, QueryRequest(Code, tag, prompt, Chosen(config, default).attrs, kw), r,
                        old(storedApiKey), old(lib.apiKey), old(lib.calls))
    {
      r := Dispatch(Code, lib, default, prompt, config, tag, kw);
    }
  }

  /**
   * The key `GPTApi.create` and `GPTApi.__init__` settle on, with the validation calls made: the
   * given key; without one, discovery when GPT_API_DEV_MODE or OPENAI_API_KEY is set, else ValueError.
   */
  function InitKey(apiKey: Option<string>, host: Host, respond: Call -> Reply): (Result<Option<string>>, seq<Call>) {
    if apiKey.Some? then (Ok(apiKey), [])
    else if host.devMode || "OPENAI_API_KEY" in host.environ then Discovery(UtilsRegistry, host, respond)
    else (Err(ValueError), [])
  }

  /** The calls `create` makes: its own discovery, and `__init__`'s when a new client is built for `None`. */
  function CreateLog(apiKey: Option<string>, host: Host, respond: Call -> Reply, known: set<Option<string>>): seq<Call> {
    var first := InitKey(apiKey, host, respond);
    if first.0.Ok? && first.0.value !in known then first.1 + InitKey(first.0.value, host, respond).1 else first.1
  }

  /** Without a key and without GPT_API_DEV_MODE or OPENAI_API_KEY, `create` refuses and makes no call. */
  lemma NoKeyNoDiscovery(host: Host, respond: Call -> Reply, known: set<Option<string>>)
    requires !host.devMode && "OPENAI_API_KEY" !in host.environ
    ensures InitKey(None, host, respond) == (Err(ValueError), [])
    ensures CreateLog(None, host, respond, known) == []
  {
  }

  /** An explicit key is used as given and costs no call. */
  lemma ExplicitKeyUsed(k: string, host: Host, respond: Call -> Reply, known: set<Option<string>>)
    ensures InitKey(Some(k), host, respond) == (Ok(Some(k)), [])
    ensures CreateLog(Some(k), host, respond, known) == []
  {
  }

  /** `GPTApi(api_key)`: settle the key as `__init__` does and build the client. */
  method NewClient(apiKey: Option<string>, host: Host, lib: Library) returns (r: Result<GPTApi>)
    modifies lib
    ensures lib.apiKey == old(lib.apiKey)
    ensures lib.calls == old(lib.calls) + InitKey(apiKey, host, lib.respond).1
    ensures match InitKey(apiKey, host, lib.respond).0
      case Err(e) => r == Err(e)
      case Ok(k) => r.Ok? && fresh(r.value) && r.value.apiKey == k && r.value.storedApiKey == None
  {
    var key := apiKey;
    if key.None? {
      if host.devMode || "OPENAI_API_KEY" in host.environ {
        var found := DiscoverApiKey(UtilsRegistry, host, lib);
        if found.Err? {
          return Err(found.error);
        }
        key := found.value;
      } else {
        return Err(ValueError);
      }
    }
    var client := new GPTApi(key);
    return Ok(client);
  }

  /** The class attribute `GPTApi.instances`. */
  class GPTApiClass {
    var instances: map<Option<string>, GPTApi>

    /** Each client is filed under its own key. */
    predicate Valid()
      reads this
    {
      forall k :: k in instances ==> instances[k].apiKey == k
    }

    constructor ()
      ensures instances == map[] && Valid()
    {
      instances := map[];
    }

    /**
     * `GPTApi.create(api_key)`: the client filed under the settled key, built (and filed) only
     * when there is none yet.
     */
    method Create(apiKey: Option<string>, host: Host, lib: Library) returns (r: Result<GPTApi>)
      requires Valid()
      modifies this, lib
      ensures Valid()
      ensures lib.apiKey == old(lib.apiKey)
      ensures lib.calls == old(lib.calls) + CreateLog(apiKey, host, lib.respond, old(instances).Keys)
      ensures match InitKey(apiKey, host, lib.respond).0
        case Err(e) => r == Err(e) && instances == old(instances)
        case Ok(k) =>
          r.Ok? && r.value.apiKey == k && instances == old(instances)[k := r.value]
          && (k in old(instances) ==> r.value == old(instances)[k])
          && (k !in old(instances) ==> fresh(r.value) && r.value.storedApiKey == None)
    {
      var key := apiKey;
      if key.None? {
        if host.devMode || "OPENAI_API_KEY" in host.environ {
          var found := DiscoverApiKey(UtilsRegistry, host, lib);
          if found.Err? {
            return Err(found.error);
          }
          key := found.value;
        } else {
          return Err(ValueError);
        }
      }
      if key in instances {
        return Ok(instances[key]);
      }
      r := NewClient(key, host, lib);
      if r.Ok? {
        instances := instances[key := r.value];
      }
    }
  }
}
