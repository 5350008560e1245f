/**
 * `QueryConfig` (gpt_api/query_config.py; openai_wrapper/wrapper.py:12-27 declares the same
 * class): a dataclass whose instance dictionary is overwritten in place by `update`.
 */
module QueryConfigs {
  import opened PyValues
  import opened OpenaiLib

  /** The dataclass fields: every instance dictionary holds them. */
  const DeclaredFields: set<string> :=
    {"model", "max_tokens", "temperature", "top_p", "n", "stream", "stop", "user"}

  /** The dictionary of a fresh `QueryConfig()`; `user` is `getpass.getuser()` at import time. */
  function Defaults(user: string): Kwargs {
    map[
      "model" := VStr("text-davinci-003"),
      "max_tokens" := VInt(512),
      "temperature" := VFloat(0.9),
      "top_p" := VFloat(1.0),
      "n" := VInt(1),
      "stream" := VBool(false),
      "stop" := VNone,
      "user" := VStr(user)]
  }

  /** A fresh configuration holds exactly the declared fields, with the dataclass defaults. */
  lemma FreshConfigFields(user: string)
    ensures Defaults(user).Keys == DeclaredFields
    ensures Defaults(user)["model"] == VStr("text-davinci-003") && Defaults(user)["max_tokens"] == VInt(512)
    ensures Defaults(user)["n"] == VInt(1) && Defaults(user)["stream"] == VBool(false) && Defaults(user)["stop"] == VNone
  {
  }

  /** `d.update(kw)` on a dictionary: the keywords win, every other entry stays. */
  function Merge(attrs: Kwargs, kw: Kwargs): (r: Kwargs)
    ensures r.Keys == attrs.Keys + kw.Keys
    ensures forall k :: k in kw ==> r[k] == kw[k]
    ensures forall k :: k in attrs && k !in kw ==> r[k] == attrs[k]
  {
    attrs + kw
  }

  /** Updating twice with the same keywords is updating once. */
  lemma MergeIdempotent(attrs: Kwargs, kw: Kwargs)
    ensures Merge(Merge(attrs, kw), kw) == Merge(attrs, kw)
  {
  }

  /** Updating keeps every declared field present (nothing is ever removed). */
  lemma MergeKeepsDeclared(attrs: Kwargs, kw: Kwargs)
    requires DeclaredFields <= attrs.Keys
    ensures DeclaredFields <= Merge(attrs, kw).Keys
  {
  }

  /** The request fields read from a configuration's attributes (`config.max_tokens`, ...). */
  function RequestParams(attrs: Kwargs): Params
    requires DeclaredFields <= attrs.Keys
  {
    Params(attrs["max_tokens"], attrs["temperature"], attrs["top_p"], attrs["n"],
           attrs["stream"], attrs["stop"], attrs["user"])
  }

  /** The request field that carries attribute `name`. */
  function ParamField(p: Params, name: string): Value
    requires name in DeclaredFields - {"model"}
  {
    match name
    case "max_tokens" => p.maxTokens
    case "temperature" => p.temperature
    case "top_p" => p.topP
    case "n" => p.n
    case "stream" => p.stream
    case "stop" => p.stop
    case _ => p.user
  }

  /**
   * An override given as a keyword reaches the request; every field not overridden is the
   * configuration's own value.
   */
  lemma OverrideReachesRequest(attrs: Kwargs, kw: Kwargs, name: string)
    requires DeclaredFields <= attrs.Keys
    requires name in DeclaredFields - {"model"}
    ensures DeclaredFields <= Merge(attrs, kw).Keys
    ensures ParamField(RequestParams(Merge(attrs, kw)), name) == if name in kw then kw[name] else attrs[name]
  {
  }

  class QueryConfig {
    /** The instance `__dict__`. */
    var attrs: Kwargs

    /** Every declared field is an attribute. */
    predicate Valid()
      reads this
    {
      DeclaredFields <= attrs.Keys
    }

    /** `QueryConfig()` with the dataclass defaults. */
    constructor (user: string)
      ensures attrs == Defaults(user) && Valid()
    {
      attrs := Defaults(user);
    }

    /**
     * `update(**kw)`: each named attribute takes its new value, names that are not declared
     * fields are added, every other attribute is unchanged; the receiver itself is changed.
     */
    method Update(kw: Kwargs)
      requires "self" !in kw // Python binds a keyword `self` to the receiver
      modifies this
      ensures attrs == Merge(old(attrs), kw)
      ensures old(Valid()) ==> Valid()
    {
      attrs := attrs + kw;
    }

    /** An instance whose dictionary is `attrs`. */
    constructor WithAttrs(attrs: Kwargs)
      ensures this.attrs == attrs
    {
      this.attrs := attrs;
    }

    /** `copy.copy(config)`: a new instance with the same attribute dictionary. */
    method Copy() returns (c: QueryConfig)
      ensures fresh(c) && c.attrs == attrs
    {
      c := new QueryConfig.WithAttrs(attrs);
    }
  }
}
