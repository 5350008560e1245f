/**
 * gpt_api/api.py: module-level functions that obtain the client for a key with
 * `GPTApi.create` and forward the call to it.
 */
module GptApi {
  import opened Wrappers
  import opened PyValues
  import opened OpenaiLib
  import opened QueryConfigs
  import opened KeyFiles
  import opened GptCore

  /**
   * The request `gpt_complete`, `gpt_insert` or `gpt_edit` has its client send: the keywords go
   * on to the client method, where a `self` keyword collides with the receiver (TypeError) and a
   * `model` keyword binds to the method's parameter.
   */
  function TopLevelRequest(t: QueryType, prompt: string, instruction: Value, attrs: Kwargs, kw: Kwargs): Result<Request>
    requires DeclaredFields <= attrs.Keys
  {
    if "self" in kw then Err(TypeError)
    else
      var bound := Bind(kw, "model", TierModel(Standard, t));
      match t
      case Complete => Ok(CompleteRequest(prompt, bound.0, attrs, bound.1))
      case Insert => InsertRequest(prompt, bound.0, attrs, bound.1)
      case Edit => Ok(EditRequest(prompt, instruction, bound.0, attrs, bound.1))
  }

  /**
   * What `query_gpt` forwards to: the endpoint function, the instruction and the remaining
   * keywords; or the error raised before any client is obtained (an unknown query type, or an
   * edit whose instruction is not among the keywords).
   */
  function QueryGptRoute(tag: TagArg, kw: Kwargs): Result<(QueryType, Value, Kwargs)> {
    match QueryTypeOf(tag)
    case Err(e) => Err(e)
    case Ok(t) =>
      if t == QueryType.Edit then
        if "instruction" in kw then Ok((t, kw["instruction"], kw - {"instruction"})) else Err(TypeError)
      else Ok((t, VNone, kw))
  }

  /** `query_gpt` sends exactly the request the client's own `query` would send. */
  lemma QueryGptMatchesQuery(tag: TagArg, prompt: string, attrs: Kwargs, kw: Kwargs)
    requires DeclaredFields <= attrs.Keys && "self" !in kw
    ensures match QueryGptRoute(tag, kw)
      case Err(e) => QueryRequest(Standard, tag, prompt, attrs, kw) == Err(e)
      case Ok(route) => TopLevelRequest(route.0, prompt, route.1, attrs, route.2) == QueryRequest(Standard, tag, prompt, attrs, kw)
  {
    match QueryTypeOf(tag)
    case Err(e) =>
    case Ok(t) =>
      if t == QueryType.Edit && "instruction" in kw {
        assert (kw - {"instruction"}) - {"model"} == (kw - {"model"}) - {"instruction"};
      }
  }

  /**
   * The effect of a module-level call that obtains its client with `create(api_key)` and then
   * has it send `req`: if no client is obtained, its error and the discovery calls; otherwise the
   * client filed under the key (the one already there, or a new one) performs the call.
   */
  twostate predicate Served(cls: GPTApiClass, lib: Library, host: Host, apiKey: Option<string>, req: Result<Request>, new r: Result<string>)
    reads cls, lib, cls.instances.Values
  {
    var init := InitKey(apiKey, host, lib.respond);
    var log := old(lib.calls) + CreateLog(apiKey, host, lib.respond, old(cls.instances).Keys);
    match init.0
    case Err(e) =>
      r == Err(e) && cls.instances == old(cls.instances) && lib.apiKey == old(lib.apiKey) && lib.calls == log
    case Ok(k) =>
      k in cls.instances && cls.instances == old(cls.instances)[k := cls.instances[k]]
      && (k in old(cls.instances) ==> cls.instances[k] == old(cls.instances)[k])
      && (k !in old(cls.instances) ==> fresh(cls.instances[k]))
      && cls.instances[k].Performed(lib, req, r,
           if k in old(cls.instances) then old(cls.instances[k].storedApiKey) else None,
           old(lib.apiKey), log)
  }

  /** `get_gpt_api(api_key)` */
  method GetGptApi(cls: GPTApiClass, apiKey: Option<string>, host: Host, lib: Library) returns (r: Result<GPTApi>)
    requires cls.Valid()
    modifies cls, lib
    ensures cls.Valid()
    ensures lib.apiKey == old(lib.apiKey)
    ensures lib.calls == old(lib.calls) + CreateLog(apiKey, host, lib.respond, old(cls.instances).Keys)
    ensures match InitKey(apiKey, host, lib.respond).0
      case Err(e) => r == Err(e) && cls.instances == old(cls.instances)
      case Ok(k) =>
        r.Ok? && r.value.apiKey == k && cls.instances == old(cls.instances)[k := r.value]
        && (k in old(cls.instances) ==> r.value == old(cls.instances)[k])
        && (k !in old(cls.instances) ==> fresh(r.value) && r.value.storedApiKey == None)
  {
    r := cls.Create(apiKey, host, lib);
  }

  /** `gpt_complete(prompt, config, api_key, **kw)` */
  method GptComplete(cls: GPTApiClass, lib: Library, host: Host, default: QueryConfig,
                     prompt: string, config: QueryConfig?, apiKey: Option<string>, kw: Kwargs)
    returns (r: Result<string>)
    requires cls.Valid() && default.Valid() && (config != null ==> config.Valid())
    requires kw.Keys !! {"prompt", "config", "api_key"}
    modifies cls, lib, cls.instances.Values
    ensures cls.Valid()
    ensures Served(cls, lib, host, apiKey, TopLevelRequest(Complete, prompt, VNone, Chosen(config, default).attrs, kw), r)
  {
    var api := GetGptApi(cls, apiKey, host, lib);
    if api.Err? {
      return Err(api.error);
    }
    if "self" in kw {
      return Err(TypeError);
    }
    var bound := Bind(kw, "model", TierModel(Standard, Complete));
    r := api.value.Complete(lib, default, prompt, config, bound.0, bound.1);
  }

  /** `gpt_insert(prompt, config, api_key, **kw)` */
  method GptInsert(cls: GPTApiClass, lib: Library, host: Host, default: QueryConfig,
                   prompt: string, config: QueryConfig?, apiKey: Option<string>, kw: Kwargs)
    returns (r: Result<string>)
    requires cls.Valid() && default.Valid() && (config != null ==> config.Valid())
    requires kw.Keys !! {"prompt", "config", "api_key"}
    modifies cls, lib, cls.instances.Values
    ensures cls.Valid()
    ensures Served(cls, lib, host, apiKey, TopLevelRequest(Insert, prompt, VNone, Chosen(config, default).attrs, kw), r)
  {
    var api := GetGptApi(cls, apiKey, host, lib);
    if api.Err? {
      return Err(api.error);
    }
    if "self" in kw {
      return Err(TypeError);
    }
    var bound := Bind(kw, "model", TierModel(Standard, Insert));
    r := api.value.Insert(lib, default, prompt, bound.0, config, bound.1);
  }

  /** `gpt_edit(prompt, instruction, config, api_key, **kw)` */
  method GptEdit(cls: GPTApiClass, lib: Library, host: Host, default: QueryConfig,
                 prompt: string, instruction: Value, config: QueryConfig?, apiKey: Option<string>, kw: Kwargs)
    returns (r: Result<string>)
    requires cls.Valid() && default.Valid() && (config != null ==> config.Valid())
    requires kw.Keys !! {"prompt", "instruction", "config", "api_key"}
    modifies cls, lib, cls.instances.Values
    ensures cls.Valid()
    ensures Served(cls, lib, host, apiKey, TopLevelRequest(QueryType.Edit, prompt, instruction, Chosen(config, default).attrs, kw), r)
  {
    var api := GetGptApi(cls, apiKey, host, lib);
    if api.Err? {
      return Err(api.error);
    }
    if "self" in kw {
      return Err(TypeError);
    }
    var bound := Bind(kw, "model", TierModel(Standard, QueryType.Edit));
    r := api.value.Edit(lib, default, prompt, instruction, config, bound.0, bound.1);
  }

  /** `query_gpt(prompt, config, query_type, api_key, **kw)` */
  method QueryGpt(cls: GPTApiClass, lib: Library, host: Host, default: QueryConfig,
                  prompt: string, config: QueryConfig?, tag: TagArg, apiKey: Option<string>, kw: Kwargs)
    returns (r: Result<string>)
    requires cls.Valid() && default.Valid() && (config != null ==> config.Valid())
    requires kw.Keys !! {"prompt", "config", "query_type", "api_key"}
    modifies cls, lib, cls.instances.Values
    ensures cls.Valid()
    ensures match QueryGptRoute(tag, kw)
      case Err(e) => r == Err(e) && unchanged(cls, lib) && unchanged(cls.instances.Values)
      case Ok(route) => Served(cls, lib, host, apiKey, TopLevelRequest(route.0, prompt, route.1, Chosen(config, default).attrs, route.2), r)
  {
    var t := QueryTypeOf(tag);
    if t.Err? {
      return Err(t.error);
    }
    match t.value
    case Complete =>
      r := GptComplete(cls, lib, host, default, prompt, config, apiKey, kw);
    case Insert =>
      r := GptInsert(cls, lib, host, default, prompt, config, apiKey, kw);
    case Edit =>
      if "instruction" !in kw {
        // `gpt_edit` is called without its positional `instruction`
        return Err(TypeError);
      }
      r := GptEdit(cls, lib, host, default, prompt, kw["instruction"], config, apiKey, kw - {"instruction"});
  }

  /** `None` for a returned text, the exception otherwise. */
  function Dropped(text: Result<string>): Result<()> {
    if text.Ok? then Ok(()) else Err(text.error)
  }

  /** `query_cheap(prompt, config, query_type, api_key, **kw)`: the text is discarded. */
  method QueryCheap(cls: GPTApiClass, lib: Library, host: Host, default: QueryConfig,
                    prompt: string, config: QueryConfig?, tag: TagArg, apiKey: Option<string>, kw: Kwargs)
    returns (r: Result<()>, ghost text: Result<string>)
    requires cls.Valid() && default.Valid() && (config != null ==> config.Valid())
    requires kw.Keys !! {"prompt", "config", "query_type", "api_key"}
    modifies cls, lib, cls.instances.Values
    ensures cls.Valid()
    ensures Served(cls, lib, host, apiKey,
                   if "self" in kw then Err(TypeError) else QueryRequest(Cheap, tag, prompt, Chosen(config, default).attrs, kw), text)
    ensures r == Dropped(text)
  {
    var api := GetGptApi(cls, apiKey, host, lib);
    if api.Err? {
      text := Err(api.error);
      return Err(api.error), text;
    }
    if "self" in kw {
      text := Err(TypeError);
      return Err(TypeError), text;
    }
    var answer := api.value.QueryCheap(lib, default, prompt, config, tag, kw);
    text := answer;
    r := Dropped(answer);
  }

  /** `query_code(prompt, config, query_type, api_key, **kw)`: the text is discarded. */
  method QueryCode(cls: GPTApiClass, lib: Library, host: Host, default: QueryConfig,
                   prompt: string, config: QueryConfig?, tag: TagArg, apiKey: Option<string>, kw: Kwargs)
    returns (r: Result<()>, ghost text: Result<string>)
    requires cls.Valid() && default.Valid() && (config != null ==> config.Valid())
    requires kw.Keys !! {"prompt", "config", "query_type", "api_key"}
    modifies cls, lib, cls.instances.Values
    ensures cls.Valid()
    ensures Served(cls, lib, host, apiKey,
                   if "self" in kw then Err(TypeError) else QueryRequest(Code, tag, prompt, Chosen(config, default).attrs, kw), text)
    ensures r == Dropped(text)
  {
    var api := GetGptApi(cls, apiKey, host, lib);
    if api.Err? {
      text := Err(api.error);
      return Err(api.error), text;
    }
    if "self" in kw {
      text := Err(TypeError);
      return Err(TypeError), text;
    }
    var answer := api.value.QueryCode(lib, default, prompt, config, tag, kw);
    text := answer;
    r := Dropped(answer);
  }
}
