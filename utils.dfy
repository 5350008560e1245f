/**
 * gpt_api/utils.py: the credential discovery of the `gpt_api` package, the probe that
 * validates a key against the service, and the token-limit table.
 */
module GptUtils {
  import opened Wrappers
  import opened PyStr
  import opened PyValues
  import opened OpenaiLib
  import opened KeyFiles

  /**
   * `validate_api_key(api_key)`: install the key, list the engines, put the previous key back
   * whether or not the listing raised; valid exactly when it did not raise.
   */
  method ValidateApiKey(lib: Library, key: Option<string>) returns (valid: bool)
    modifies lib
    ensures lib.apiKey == old(lib.apiKey)
    ensures lib.calls == old(lib.calls) + [Call(key, EngineList)]
    ensures valid <==> lib.respond(Call(key, EngineList)).Returned?
  {
    var oldKey := lib.apiKey;
    lib.apiKey := key;
    var reply := lib.Send(EngineList);
    if reply.Raised? {
      lib.apiKey := oldKey;
      return false;
    }
    lib.apiKey := oldKey;
    return true;
  }

  /**
   * The module-level `registry` (utils.py:8). Nothing in the package ever writes it, so it is
   * the empty map here, and the registry lookup of `discover_api_key` (utils.py:36-37) never
   * answers by this definition alone.
   */
  const UtilsRegistry: map<Option<string>, Option<string>> := map[]

  /** The call one `validate_api_key(key)` makes. */
  function Validation(key: Option<string>): Call {
    Call(key, EngineList)
  }

  /** The service lists the engines for `key` without raising: `validate_api_key(key)` is true. */
  predicate Accepted(respond: Call -> Reply, key: Option<string>) {
    respond(Validation(key)).Returned?
  }

  /** The validations made for typed answers that were all tried: each is validated twice. */
  function TriesLog(answers: seq<string>): (log: seq<Call>)
    ensures |log| == 2 * |answers|
  {
    if answers == [] then []
    else
      var last := answers[|answers| - 1];
      TriesLog(answers[..|answers| - 1]) + [Validation(Some(last)), Validation(Some(last))]
  }

  /**
   * The prompt loop from the first typed answer on: the first answer the service accepts, or
   * EOFError once the answers run out; together with the validations made and the answers
   * left unread.
   */
  function Tries(respond: Call -> Reply, answers: seq<string>): (Result<Option<string>>, seq<Call>, seq<string>)
    decreases |answers|
  {
    if answers == [] then (Err(EOFError), [], [])
    else
      var a := answers[0];
      var step := [Validation(Some(a)), Validation(Some(a))];
      if Accepted(respond, Some(a)) then (Ok(Some(a)), step, answers[1..])
      else
        var rest := Tries(respond, answers[1..]);
        (rest.0, step + rest.1, rest.2)
  }

  /** `res.lower() == 'y'` */
  predicate SaysYes(res: string) {
    res == "y" || res == "Y"
  }

  /**
   * "Save token to file?" once a key is settled: `input()` reads the reply and, after a yes,
   * the path (EOFError when input has ended); `f.write(key)` raises TypeError for a `None` key.
   * The result is the key itself when the dialogue completes.
   */
  function SaveDialogue(key: Option<string>, rest: seq<string>): Result<Option<string>> {
    if rest == [] then Err(EOFError)
    else if !SaysYes(rest[0]) then Ok(key)
    else if |rest| == 1 then Err(EOFError)
    else if key.None? then Err(TypeError)
    else Ok(key)
  }

  /**
   * utils.py:63-78: the missing key is validated first; only if it is refused does prompting
   * start; the settled key is then offered for saving.
   */
  function Prompting(respond: Call -> Reply, answers: seq<string>): (Result<Option<string>>, seq<Call>) {
    if Accepted(respond, None) then (SaveDialogue(None, answers), [Validation(None)])
    else
      var t := Tries(respond, answers);
      (if t.0.Ok? then SaveDialogue(t.0.value, t.2) else t.0, [Validation(None)] + t.1)
  }

  /**
   * What `discover_api_key()` returns given the registry's contents, with the validation calls
   * it makes: a registry hit for the environment key, else the environment key, else the file
   * search, else the prompt loop.
   */
  function Discovery(registry: map<Option<string>, Option<string>>, host: Host, respond: Call -> Reply): (Result<Option<string>>, seq<Call>) {
    var envKey := EnvKey(host.environ);
    if envKey in registry then (Ok(registry[envKey]), [])
    else if envKey.Some? then (Ok(envKey), [])
    else
      match SearchResult(host.files, host.decode, GptApiLocations)
      case Err(e) => (Err(e), [])
      case Ok(Some(k)) => (Ok(Some(k)), [])
      case Ok(None) => Prompting(respond, host.answers)
  }

  lemma {:induction false} TriesLogCons(a: string, answers: seq<string>)
    ensures TriesLog([a] + answers) == [Validation(Some(a)), Validation(Some(a))] + TriesLog(answers)
    decreases |answers|
  {
    if answers == [] {
      assert [a] + answers == [a];
      assert [a][..0] == [];
    } else {
      var s := [a] + answers;
      var last := answers[|answers| - 1];
      assert s[|s| - 1] == last;
      assert s[..|s| - 1] == [a] + answers[..|answers| - 1];
      TriesLogCons(a, answers[..|answers| - 1]);
    }
  }

  /** The loop ends at the first accepted answer, having validated it and every earlier one twice. */
  lemma {:induction false} PromptStopsAtFirstAccepted(respond: Call -> Reply, answers: seq<string>, j: nat)
    requires j < |answers| && Accepted(respond, Some(answers[j]))
    requires forall q :: 0 <= q < j ==> !Accepted(respond, Some(answers[q]))
    ensures Tries(respond, answers) == (Ok(Some(answers[j])), TriesLog(answers[..j + 1]), answers[j + 1..])
    decreases j
  {
    if j == 0 {
      var s := answers[..1];
      assert s[..0] == [] && s[0] == answers[0];
      assert TriesLog(s[..0]) == [];
      assert TriesLog(s) == [Validation(Some(answers[0])), Validation(Some(answers[0]))];
      assert Tries(respond, answers) == (Ok(Some(answers[0])), [Validation(Some(answers[0])), Validation(Some(answers[0]))], answers[1..]);
    } else {
      var rest := answers[1..];
      assert forall q :: 0 <= q < j - 1 ==> rest[q] == answers[q + 1];
      PromptStopsAtFirstAccepted(respond, rest, j - 1);
      assert rest[j..] == answers[j + 1..];
      assert answers[..j + 1] == [answers[0]] + rest[..j];
      TriesLogCons(answers[0], rest[..j]);
    }
  }

  /** When no answer is accepted the loop validates each twice and ends in EOFError. */
  lemma {:induction false} PromptEndOfInput(respond: Call -> Reply, answers: seq<string>)
    requires forall q :: 0 <= q < |answers| ==> !Accepted(respond, Some(answers[q]))
    ensures Tries(respond, answers) == (Err(EOFError), TriesLog(answers), [])
    decreases |answers|
  {
    if answers != [] {
      var rest := answers[1..];
      assert forall q :: 0 <= q < |rest| ==> rest[q] == answers[q + 1];
      PromptEndOfInput(respond, rest);
      assert answers == [answers[0]] + rest;
      TriesLogCons(answers[0], rest);
    }
  }

  /**
   * utils.py:63-78: validate the missing key, then read answers until the service accepts one,
   * then ask whether to save it.
   */
  method PromptForKey(lib: Library, answers: seq<string>) returns (r: Result<Option<string>>)
    modifies lib
    ensures lib.apiKey == old(lib.apiKey)
    ensures r == Prompting(lib.respond, answers).0
    ensures lib.calls == old(lib.calls) + Prompting(lib.respond, answers).1
  {
    var apiKey: Option<string> := None;
    var accepted := ValidateApiKey(lib, apiKey);
    var i := 0;
    while !accepted
      invariant 0 <= i <= |answers|
      invariant lib.apiKey == old(lib.apiKey)
      invariant lib.calls == old(lib.calls) + [Validation(None)] + TriesLog(answers[..i])
      invariant i == 0 ==> apiKey == None
      invariant i > 0 ==> apiKey == Some(answers[i - 1]) && !Accepted(lib.respond, None)
      invariant accepted == Accepted(lib.respond, apiKey)
      invariant forall q :: 0 <= q < i - 1 ==> !Accepted(lib.respond, Some(answers[q]))
      invariant !accepted ==> forall q :: 0 <= q < i ==> !Accepted(lib.respond, Some(answers[q]))
      decreases |answers| - i
    {
      if i == |answers| {
        // `getpass` at end of input
        assert answers[..i] == answers;
        PromptEndOfInput(lib.respond, answers);
        return Err(EOFError);
      }
      apiKey := Some(answers[i]);
      assert answers[..i + 1][..i] == answers[..i];
      i := i + 1;
      var valid := ValidateApiKey(lib, apiKey);
      accepted := ValidateApiKey(lib, apiKey);
    }
    if i > 0 {
      PromptStopsAtFirstAccepted(lib.respond, answers, i - 1);
    }
    // "Save token to file? [y/n]"
    if i == |answers| {
      return Err(EOFError);
    }
    var res := answers[i];
    if SaysYes(res) {
      // the path prompt, then `f.write(api_key)`
      if i + 1 == |answers| {
        return Err(EOFError);
      }
      if apiKey.None? {
        return Err(TypeError);
      }
    }
    return Ok(apiKey);
  }

  /** `discover_api_key()`, reading `registry` as it stands. */
  method DiscoverApiKey(registry: map<Option<string>, Option<string>>, host: Host, lib: Library) returns (r: Result<Option<string>>)
    modifies lib
    ensures lib.apiKey == old(lib.apiKey)
    ensures r == Discovery(registry, host, lib.respond).0
    ensures lib.calls == old(lib.calls) + Discovery(registry, host, lib.respond).1
  {
    var apiKey := EnvKey(host.environ);
    if apiKey in registry {
      return Ok(registry[apiKey]);
    }
    if apiKey.None? {
      var found := SearchKeyFiles(host.files, host.decode, GptApiLocations);
      if found.Err? {
        return Err(found.error);
      }
      apiKey := found.value;
      if apiKey.None? {
        r := PromptForKey(lib, host.answers);
        return;
      }
    }
    return Ok(apiKey);
  }

  /**
   * The registry lookup is dead code: a consequence of the definition of `UtilsRegistry`, kept
   * so that `discover_api_key` over the module's registry can be read as the search alone.
   */
  lemma RegistryNeverAnswers(host: Host, respond: Call -> Reply)
    ensures Discovery(UtilsRegistry, host, respond) == Discovery(map[], host, respond)
    ensures EnvKey(host.environ) !in UtilsRegistry
  {
  }

  /** A set OPENAI_API_KEY is the result, whatever the files say. */
  lemma EnvironmentKeyWins(host: Host, respond: Call -> Reply, files: map<Path, string>)
    requires "OPENAI_API_KEY" in host.environ
    ensures Discovery(UtilsRegistry, host, respond) == (Ok(Some(host.environ["OPENAI_API_KEY"])), [])
    ensures Discovery(UtilsRegistry, host.(files := files), respond) == Discovery(UtilsRegistry, host, respond)
  {
  }

  /** A JSON file `{"openai_api_key": k}` in the home directory, and no dotfile there, gives `k`. */
  lemma JsonKeyAtHome(host: Host, respond: Call -> Reply, text: string, k: string)
    requires "OPENAI_API_KEY" !in host.environ
    requires (Home, ".openai_api_key") !in host.files
    requires (Home, "secrets.json") in host.files && host.files[(Home, "secrets.json")] == text
    requires host.decode(text) == Some(JObject(map[KeyField := JString(k)]))
    ensures Discovery(UtilsRegistry, host, respond) == (Ok(Some(k)), [])
  {
    assert EndsWith("secrets.json", ".json");
    var names := KeyFilenames;
    assert ProbeAt(host.files, host.decode, (Home, names[0])) == Ok(Miss);
    assert names[1..][0] == "secrets.json";
    assert ScanNames(host.files, host.decode, Home, names) == Ok(Hit(Some(k)));
  }

  /** A one-line dotfile in the home directory gives its stripped text. */
  lemma DotfileKeyAtHome(host: Host, respond: Call -> Reply, pre: string, k: string, post: string)
    requires "OPENAI_API_KEY" !in host.environ
    requires AllSpace(pre) && AllSpace(post) && k != [] && Trimmed(k) && NoLineBreak(k)
    requires (Home, ".openai_api_key") in host.files && host.files[(Home, ".openai_api_key")] == pre + k + post
    ensures Discovery(UtilsRegistry, host, respond) == (Ok(Some(k)), [])
  {
    assert !EndsWith(".openai_api_key", ".json") by {
      assert ".openai_api_key"[|".openai_api_key"| - 5..] == "i_key";
    }
    assert !EndsWith(".openai_api_key", ".txt") by {
      assert ".openai_api_key"[|".openai_api_key"| - 4..] == "_key";
    }
    assert StartsWith(".openai_api_key", ".");
    DotfileRoundTrip(pre, k, post);
    assert ScanNames(host.files, host.decode, Home, KeyFilenames) == Ok(Hit(Some(k)));
  }

  /** `GptModels` */
  datatype GptModel =
    | TextDavinci003
    | TextCurie001
    | TextDavinciInsert002
    | TextDavinciEdit001
    | CodeDavinciEdit001
    | CodeDavinci002
  {
    /** The member's value. */
    function Name(): string {
      match this
      case TextDavinci003 => "text-davinci-003"
      case TextCurie001 => "text-curie-001"
      case TextDavinciInsert002 => "text-davinci-insert-002"
      case TextDavinciEdit001 => "text-davinci-edit-001"
      case CodeDavinciEdit001 => "code-davinci-edit-001"
      case CodeDavinci002 => "code-davinci-002"
    }
  }

  /** `GptModels(s)`: the member whose value is `s`, else ValueError. */
  function GptModelOf(s: string): (r: Result<GptModel>)
    ensures r.Ok? ==> r.value.Name() == s
    ensures r.Err? ==> r.error == ValueError && forall m: GptModel :: m.Name() != s
  {
    if s == "text-davinci-003" then Ok(TextDavinci003)
    else if s == "text-curie-001" then Ok(TextCurie001)
    else if s == "text-davinci-insert-002" then Ok(TextDavinciInsert002)
    else if s == "text-davinci-edit-001" then Ok(TextDavinciEdit001)
    else if s == "code-davinci-edit-001" then Ok(CodeDavinciEdit001)
    else if s == "code-davinci-002" then Ok(CodeDavinci002)
    else Err(ValueError)
  }

  /** `TOKEN_BY_MODEL`: three of the six members have an entry. */
  const TokenByModel: map<GptModel, nat> :=
    map[TextDavinci003 := 4000, TextCurie001 := 2048, CodeDavinci002 := 8000]

  /** The argument of `get_token_limit`: a `GptModels` member, a member of another enum, or any other value. */
  datatype ModelArg = Member(m: GptModel) | OtherEnum(enumValue: Value) | Plain(v: Value)

  /** `get_token_limit(model)` */
  function TokenLimit(arg: ModelArg): Result<nat> {
    var v := match arg
      case Member(m) => VStr(m.Name())
      case OtherEnum(ev) => ev
      case Plain(pv) => pv;
    if !v.VStr? then Err(ValueError)
    else
      match GptModelOf(v.s)
      case Err(e) => Err(e)
      case Ok(m) => if m in TokenByModel then Ok(TokenByModel[m]) else Err(KeyError)
  }

  /**
   * The table: the three listed models, named by member or by value; an unknown name and a
   * value that is not a string are ValueErrors; a member without an entry is a KeyError.
   */
  lemma TokenLimitTable(m: GptModel, s: string, v: Value)
    ensures TokenLimit(Member(m)) == TokenLimit(Plain(VStr(m.Name())))
    ensures TokenLimit(Plain(VStr("text-davinci-003"))) == Ok(4000)
    ensures TokenLimit(Plain(VStr("text-curie-001"))) == Ok(2048)
    ensures TokenLimit(Plain(VStr("code-davinci-002"))) == Ok(8000)
    ensures m !in TokenByModel ==> TokenLimit(Member(m)) == Err(KeyError)
    ensures (forall n: GptModel :: n.Name() != s) ==> TokenLimit(Plain(VStr(s))) == Err(ValueError)
    ensures !v.VStr? ==> TokenLimit(Plain(v)) == Err(ValueError) && TokenLimit(OtherEnum(v)) == Err(ValueError)
  {
    assert GptModelOf(m.Name()) == Ok(m) by {
      match m
      case TextDavinci003 =>
      case TextCurie001 =>
      case TextDavinciInsert002 =>
      case TextDavinciEdit001 =>
      case CodeDavinciEdit001 =>
      case CodeDavinci002 =>
    }
    if forall n: GptModel :: n.Name() != s {
      assert TextDavinci003.Name() != s && TextCurie001.Name() != s && CodeDavinci002.Name() != s;
      assert TextDavinciInsert002.Name() != s && TextDavinciEdit001.Name() != s && CodeDavinciEdit001.Name() != s;
    }
  }
}
