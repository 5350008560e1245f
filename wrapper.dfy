/**
 * openai_wrapper/wrapper.py: the older client. `query` applies its keyword arguments to the
 * configuration it is given, in place, and `_query` installs the client's key as the global key
 * for good. `get_openai_wrapper` keeps a registry of clients by key and discovers a missing key
 * with the same file search as gpt_api/utils.py.
 */
module OpenaiWrappers {
  import opened Wrappers
  import opened PyValues
  import opened OpenaiLib
  import opened QueryConfigs
  import opened KeyFiles
  import opened GptUtils

  /** The request `_query` sends: every field, the model included, read from the configuration. */
  function WrapperRequest(prompt: string, attrs: Kwargs): Request
    requires DeclaredFields <= attrs.Keys
  {
    CompletionCreate(attrs["model"], prompt, RequestParams(attrs))
  }

  /** The model `query_cheap` asks for. */
  const CheapModel: Value := VStr("text-curie-001")

  class OpenaiWrapper {
    /** `self.api_key` */
    const apiKey: string

    constructor (apiKey: string)
      ensures this.apiKey == apiKey
    {
      this.apiKey := apiKey;
    }

    /** `_query(prompt, config)`: the global key is set to this client's key and left so. */
    method SendQuery(lib: Library, prompt: string, config: QueryConfig) returns (reply: Reply)
      requires config.Valid()
      modifies lib
      ensures lib.apiKey == Some(apiKey)
      ensures lib.calls == old(lib.calls) + [Call(Some(apiKey), WrapperRequest(prompt, config.attrs))]
      ensures reply == lib.respond(Call(Some(apiKey), WrapperRequest(prompt, config.attrs)))
    {
      lib.apiKey := Some(apiKey);
      reply := lib.Send(CompletionCreate(config.attrs["model"], prompt, RequestParams(config.attrs)));
    }

    /**
     * `query(prompt, config, **kw)`: the configuration object itself takes the keywords, then
     * its fields make the request; a None configuration fails on `update` (AttributeError).
     */
    method Query(lib: Library, prompt: string, config: QueryConfig?, kw: Kwargs) returns (r: Result<string>)
      requires config != null ==> config.Valid()
      requires kw.Keys !! {"self", "prompt", "config"}
      modifies lib, config
      ensures config == null ==> r == Err(AttributeError) && unchanged(lib)
      ensures config != null ==>
        && config.attrs == Merge(old(config.attrs), kw)
        && config.Valid()
        && lib.apiKey == Some(apiKey)
        && lib.calls == old(lib.calls) + [Call(Some(apiKey), WrapperRequest(prompt, config.attrs))]
        && r == FirstText(lib.respond(Call(Some(apiKey), WrapperRequest(prompt, config.attrs))))
    {
      if config == null {
        return Err(AttributeError);
      }
      config.Update(kw);
      var reply := SendQuery(lib, prompt, config);
      r := FirstText(reply);
    }

    /**
     * `query_cheap(prompt, **kw)`: a `model` keyword is refused; otherwise `query` with
     * `model="text-curie-001"` added to the keywords. `config` is the `config` keyword when one
     * is given and `DEFAULT_QUERY_CONFIG` otherwise.
     */
    method QueryCheap(lib: Library, prompt: string, config: QueryConfig?, kw: Kwargs) returns (r: Result<string>)
      requires config != null ==> config.Valid()
      requires kw.Keys !! {"self", "prompt", "config"}
      modifies lib, config
      ensures "model" in kw ==> r == Err(ValueError) && unchanged(lib) && (config != null ==> unchanged(config))
      ensures "model" !in kw && config == null ==> r == Err(AttributeError) && unchanged(lib)
      ensures "model" !in kw && config != null ==>
        && config.attrs == Merge(old(config.attrs), kw["model" := CheapModel])
        && config.attrs["model"] == CheapModel
        && config.Valid()
        && lib.apiKey == Some(apiKey)
        && lib.calls == old(lib.calls) + [Call(Some(apiKey), WrapperRequest(prompt, config.attrs))]
        && r == FirstText(lib.respond(Call(Some(apiKey), WrapperRequest(prompt, config.attrs))))
    {
      if "model" in kw {
        return Err(ValueError);
      }
      r := Query(lib, prompt, config, kw["model" := CheapModel]);
    }
  }

  /**
   * A cheap query on the shared default configuration leaves its model set to curie, so a later
   * plain query with no overrides asks for curie as well.
   */
  method CheapQueryPersists(w: OpenaiWrapper, lib: Library, default: QueryConfig, first: string, second: string)
    returns (r1: Result<string>, r2: Result<string>)
    requires default.Valid()
    modifies lib, default
    ensures default.Valid() && default.attrs["model"] == CheapModel
    ensures |lib.calls| >= 2
    ensures lib.calls[|lib.calls| - 1] == Call(Some(w.apiKey), CompletionCreate(CheapModel, second, RequestParams(default.attrs)))
  {
    r1 := w.QueryCheap(lib, first, default, map[]);
    r2 := w.Query(lib, second, default, map[]);
  }

  /** The key `get_openai_wrapper` looks up first: the explicit key, else OPENAI_API_KEY. */
  function LookupKey(apiKey: Option<string>, environ: map<string, string>): Option<string> {
    if apiKey.Some? then apiKey else EnvKey(environ)
  }

  /**
   * The key a new wrapper is built for when the lookup misses: the looked-up key; without one,
   * the file search, else the first answer read at the prompt followed by the save dialogue
   * (EOFError when input ends before the dialogue does).
   */
  function WrapperKey(first: Option<string>, host: Host): Result<string> {
    if first.Some? then Ok(first.value)
    else
      match SearchResult(host.files, host.decode, WrapperLocations)
      case Err(e) => Err(e)
      case Ok(Some(k)) => Ok(k)
      case Ok(None) =>
        if host.answers == [] then Err(EOFError)
        else if SaveDialogue(Some(host.answers[0]), host.answers[1..]).Err? then Err(EOFError)
        else Ok(host.answers[0])
  }

  /**
   * Unlike `discover_api_key`, the prompt here takes the first answer unvalidated; the save
   * dialogue after it needs a reply, and a path after a yes.
   */
  lemma WrapperPromptTakesFirstAnswer(host: Host)
    requires "OPENAI_API_KEY" !in host.environ && SearchResult(host.files, host.decode, WrapperLocations) == Ok(None)
    ensures WrapperKey(None, host) == (if |host.answers| >= 2 && !SaysYes(host.answers[1]) then Ok(host.answers[0])
      else if |host.answers| >= 3 then Ok(host.answers[0]) else Err(EOFError))
  {
  }

  /**
   * Up to the prompt, and when the two package directories hold the same key files, the older
   * discovery agrees with `discover_api_key`: the same environment rule and the same file
   * search, with the same result or the same error.
   */
  lemma DiscoveryAgreesWithUtils(host: Host, respond: Call -> Reply)
    requires SameFiles(host.files, GptApiDir, WrapperDir, KeyFilenames)
    requires "OPENAI_API_KEY" in host.environ || SearchResult(host.files, host.decode, GptApiLocations) != Ok(None)
    ensures Discovery(UtilsRegistry, host, respond).0 ==
      match WrapperKey(EnvKey(host.environ), host)
      case Ok(k) => Ok(Some(k))
      case Err(e) => Err(e)
  {
    PackageLocationsAlike(host.files, host.decode);
  }

  /** The module-level `registry`. */
  class WrapperRegistry {
    var registry: map<string, OpenaiWrapper>

    /** Each wrapper is filed under its own key. */
    predicate Valid()
      reads this
    {
      forall k :: k in registry ==> registry[k].apiKey == k
    }

    constructor ()
      ensures registry == map[] && Valid()
    {
      registry := map[];
    }

    /**
     * `get_openai_wrapper(api_key)`: the filed wrapper when the looked-up key has one; otherwise
     * a new wrapper filed under the settled key, replacing whatever was filed there.
     */
    method GetOpenaiWrapper(apiKey: Option<string>, host: Host) returns (r: Result<OpenaiWrapper>)
      requires Valid()
      modifies this
      ensures Valid()
      ensures var first := LookupKey(apiKey, host.environ);
        first.Some? && first.value in old(registry) ==> r == Ok(old(registry)[first.value]) && registry == old(registry)
      ensures var first := LookupKey(apiKey, host.environ);
        !(first.Some? && first.value in old(registry)) ==>
          match WrapperKey(first, host)
          case Err(e) => r == Err(e) && registry == old(registry)
          case Ok(k) => r.Ok? && fresh(r.value) && r.value.apiKey == k && registry == old(registry)[k := r.value]
    {
      var key := apiKey;
      if key.None? {
        key := EnvKey(host.environ);
      }
      if key.Some? && key.value in registry {
        return Ok(registry[key.value]);
      }
      if key.None? {
        var found := SearchKeyFiles(host.files, host.decode, WrapperLocations);
        if found.Err? {
          return Err(found.error);
        }
        key := found.value;
        if key.None? {
          // `getpass` for the key, then "Save token to file? [y/n]" (wrapper.py:115-126)
          if host.answers == [] {
            return Err(EOFError);
          }
          key := Some(host.answers[0]);
          if |host.answers| == 1 {
            return Err(EOFError);
          }
          var res := host.answers[1];
          if SaysYes(res) && |host.answers| == 2 {
            // the path prompt
            return Err(EOFError);
          }
        }
      }
      var wrapper := new OpenaiWrapper(key.value);
      registry := registry[key.value := wrapper];
      return Ok(wrapper);
    }
  }

  /**
   * A key found by the file search is looked up only after it is found, and never in the
   * registry: a wrapper already filed under it is replaced by a new one.
   */
  method DiscoveryReplacesFiled(reg: WrapperRegistry, host: Host, k: string) returns (r: Result<OpenaiWrapper>)
    requires reg.Valid() && k in reg.registry
    requires "OPENAI_API_KEY" !in host.environ && SearchResult(host.files, host.decode, WrapperLocations) == Ok(Some(k))
    modifies reg
    ensures r.Ok? && k in reg.registry && reg.registry[k] == r.value && r.value != old(reg.registry[k])
  {
    assert LookupKey(None, host.environ) == None;
    assert WrapperKey(None, host) == Ok(k);
    r := reg.GetOpenaiWrapper(None, host);
  }
}
