# openai_wrapper: a Dafny model of the GPT client core

The repository wraps the OpenAI Python client in two generations of helpers.

- **`gpt_api`**
  - `GPTApi` is a client object. For the length of each call it installs its own key as the process-wide `openai.api_key` (`with self:`), and it restores the previous key afterwards.
  - Each call reads a shallow copy of a `QueryConfig` updated with the call's keyword arguments, then sends one `Completion.create` or `Edit.create` request.
  - `insert` insists that the prompt holds the `[insert]` marker exactly once.
  - `query`, `query_cheap` and `query_code` route a query type (`complete`, `insert`, `edit`) to those endpoints. The last two force a model per type.
  - `GPTApi.create` keeps one client per key. Without a key, it discovers one only in development mode or when OPENAI_API_KEY is set.
  - `discover_api_key` tries these sources in order:
    1. the environment;
    2. three credential-file formats, in three locations, location-major;
    3. an interactive prompt loop that validates each typed key by listing engines.
  - The module-level functions of `api.py` obtain the client for a key and forward to it.
  - `get_token_limit` maps a model to its token budget.
- **`openai_wrapper`**
  - `OpenaiWrapper.query` updates the configuration it is given in place, including the shared default. `_query` sets the global key and never restores it.
  - `get_openai_wrapper` keeps a registry of wrappers by key. It discovers a missing key with the same file search, followed by a single prompt.

## How it is modelled

Mutable state becomes Dafny classes.

- **`OpenaiLib.Library`** is the `openai` module:
  - `apiKey` is `openai.api_key`;
  - `calls` is the log of every request sent, each with the key that was installed when it went out;
  - `respond` is the remote service, an oracle from calls to replies.
- **`QueryConfigs.QueryConfig`** holds the instance dictionary as a map, so an in-place `update` is a reassignment of that field.
- **`GptCore.GPTApi`** carries `_stored_api_key`.
- **`GptCore.GPTApiClass`** carries `GPTApi.instances`.
- **`OpenaiWrappers.WrapperRegistry`** carries the wrapper module's `registry`.

The process's surroundings are one value, `KeyFiles.Host`:

- the environment;
- `GPT_API_DEV_MODE`;
- the files that exist, with their text;
- `json.loads`, as an oracle;
- the lines the user types at the prompts, in order.

Each method is proved against a function or predicate over the old state. Examples:

- `GptUtils.DiscoverApiKey` against `Discovery`;
- `KeyFiles.SearchKeyFiles` against `SearchResult`;
- every `GPTApi` endpoint against `Performed`;
- the `api.py` functions against `Served`.

Lemmas then state what those functions promise.

Keyword arguments are maps from names to `PyValues.Value`. Python's argument binding is written out:

- `Bind` takes a keyword that fills a named parameter;
- `PassKeyword` makes a duplicate keyword a TypeError.

A `requires kw.Keys !! {...}` on a method excludes the names that Python would bind to that method's own named parameters. Such a keyword never arrives in `**kwargs`, so the exclusion describes how the call binds. It is not a restriction on callers. A keyword named `self` collides with the receiver and is modelled as a TypeError where it can reach a bound method.

One might expect the wrapper's overrides to last for one query only. The code of `openai_wrapper/wrapper.py:55` mutates the configuration object it was given, the shared `DEFAULT_QUERY_CONFIG` included. The model follows the code: `OpenaiWrappers.CheapQueryPersists` shows that a cheap query leaves the default model set to curie for every later query.

## Model

| member | source | states |
|---|---|---|
| PyStr.Strip | gpt_api/utils.py:60-61 | `str.strip()` gives a trimmed infix of its input, with only whitespace removed on either side |
| PyStr.StripPadded | gpt_api/utils.py:60-61 | stripping whitespace around a trimmed text gives back exactly that text |
| PyStr.SplitLinesJoin | gpt_api/utils.py:54 | `splitlines()` recovers the lines of a text written one line per newline |
| PyStr.SplitLinesWritten | gpt_api/utils.py:54 | `splitlines()` recovers the lines of a text whose lines end in `\n` or `\r\n`, the last one possibly unterminated |
| PyStr.SplitLines | gpt_api/utils.py:54 | `str.splitlines()`; its contract is stated by the lemmas `SplitLinesJoin`, `SplitLinesWritten`, `OneLine`, `TwoLines` and `TrimmedOneLine` |
| PyStr.TrimmedOneLine | gpt_api/utils.py:60 | a stripped text is one line exactly when it is non-empty and holds no line boundary |
| PyStr.OneLine | gpt_api/utils.py:60 | a non-empty text without line boundaries is one line |
| PyStr.TwoLines | gpt_api/utils.py:60 | a text with a boundary before its last character has at least two lines |
| PyStr.SplitOnce | gpt_api/utils.py:54 | `split(':', 1)` gives two parts exactly when the separator occurs, the first free of it, and they rebuild the text around the first separator |
| PyStr.CountZeroIffAbsent | gpt_api/core.py:62 | `count` is zero exactly when the substring does not occur |
| PyStr.Count | gpt_api/core.py:62 | `str.count` as a non-overlapping left-to-right scan; its contract is stated by the lemmas `CountZeroIffAbsent`, `CountOnlyOccurrence`, `CountTwoOccurrences` and `CountOneIffOnlyOccurrence` |
| PyStr.CountOnlyOccurrence | gpt_api/core.py:62 | a text holding the substring at one position only counts it once |
| PyStr.CountTwoOccurrences | gpt_api/core.py:62 | for a substring that cannot overlap itself, any two distinct occurrences are both counted |
| PyStr.CountOneIffOnlyOccurrence | gpt_api/core.py:62 | for a substring that cannot overlap itself, `count` is one exactly when it occurs at one position only |
| QueryConfigs.FreshConfigFields | gpt_api/query_config.py:6-15 | a fresh configuration holds exactly the declared fields, with the dataclass defaults |
| QueryConfigs.Merge | gpt_api/query_config.py:17-18 | `__dict__.update`: the keywords win, every other attribute stays, and no key is lost |
| QueryConfigs.MergeIdempotent | gpt_api/query_config.py:17-18 | updating twice with the same keywords equals updating once |
| QueryConfigs.MergeKeepsDeclared | gpt_api/query_config.py:17-18 | an update never removes a declared field |
| QueryConfigs.OverrideReachesRequest | gpt_api/core.py:72-83 | every request field except the model is the keyword when one is given, otherwise the configuration's attribute |
| QueryConfigs.QueryConfig.constructor | gpt_api/query_config.py:6-21 | `QueryConfig()` has the default dictionary and every declared field |
| QueryConfigs.QueryConfig.Update | gpt_api/query_config.py:17-18 | the instance dictionary becomes the merge of the old one with the keywords, and validity is kept |
| QueryConfigs.QueryConfig.Copy | gpt_api/core.py:71 | `copy(config)` is a new object with the same dictionary |
| OpenaiLib.Library.Send | gpt_api/core.py:73-83 | one request is logged with the key installed at that moment, and the reply is the service's reply to that call |
| KeyFiles.DotfileProbeIff | gpt_api/utils.py:58-62 | `.openai_api_key` yields key `k` exactly when `k` is the stripped text and that text is a single non-empty line; it never yields `None` |
| KeyFiles.DotfileRoundTrip | gpt_api/utils.py:58-62 | a one-line key padded with whitespace is read back as the key |
| KeyFiles.DotfileProbe | gpt_api/utils.py:58-62 | the `.openai_api_key` reader; its contract is stated by the lemmas `DotfileProbeIff` and `DotfileRoundTrip` |
| KeyFiles.TxtProbe | gpt_api/utils.py:52-57 | the `secrets.txt` reader; its contract is stated by the lemmas `TxtLastEntryWins` and `TxtLineWithoutColonFails` |
| KeyFiles.EntrySplits | gpt_api/utils.py:54 | a `name:value` line splits into its name and value when the name has no colon |
| KeyFiles.LastEntryWins | gpt_api/utils.py:54 | `dict(...)` of the split lines maps a name to the value on the last line that has that name |
| KeyFiles.TxtLastEntryWins | gpt_api/utils.py:52-57 | `secrets.txt` yields the value of its last `openai_api_key:` line, with lines ending in `\n` or `\r\n` and the last line terminated or not |
| KeyFiles.TxtLineWithoutColonFails | gpt_api/utils.py:54 | a line without a colon makes `dict()` raise ValueError, however the lines end |
| KeyFiles.JsonFieldRules | gpt_api/utils.py:47-51 | `secrets.json` yields its string field, or `None` for a JSON null. A decoded object without the field is skipped, and text that does not decode raises ValueError |
| KeyFiles.JsonProbe | gpt_api/utils.py:47-51 | the `secrets.json` reader; its contract is stated by the lemma `JsonFieldRules` |
| KeyFiles.SearchKeyFiles | gpt_api/utils.py:39-62 | the nested location/file-name loops with their two `break`s compute `SearchResult` over the location list they are given |
| KeyFiles.ScanNamesFirst | gpt_api/utils.py:42-62 | within one location, the first file name that yields anything, or raises, decides the location |
| KeyFiles.FirstDecisiveCandidateWins | gpt_api/utils.py:39-62 | in location-major order, the first candidate that yields a key, or raises, decides the search; missing or keyless files before it are skipped |
| KeyFiles.NoCandidateYields | gpt_api/utils.py:39-63 | when every candidate is missing or keyless, the search ends with no key |
| KeyFiles.NullKeyMovesToNextLocation | gpt_api/utils.py:40-41 | a JSON `null` key ends the location's loop with no key, and the search goes on at the next location |
| KeyFiles.PackageLocationsAlike | openai_wrapper/wrapper.py:77-81 | the two packages' location lists differ in the package directory only, so when the two package directories hold the same key files both searches give the same result |
| KeyFiles.PackageLocationsDiffer | gpt_api/utils.py:14-18 | a key file in the `gpt_api` package directory alone is found by its search and not by the wrapper's |
| GptUtils.ValidateApiKey | gpt_api/utils.py:21-30 | one engine listing under the given key; the result is true exactly when the listing returns, and the previous global key is restored either way |
| GptUtils.PromptStopsAtFirstAccepted | gpt_api/utils.py:63-68 | the prompt loop returns the first typed key that validates, after validating each earlier answer twice |
| GptUtils.PromptEndOfInput | gpt_api/utils.py:64-66 | when no typed key validates, the loop ends with EOFError once the answers run out |
| GptUtils.SaveDialogue | gpt_api/utils.py:69-78 | the replies read after the key is settled; its cases are stated by `PromptForKey` through `Prompting` |
| GptUtils.PromptForKey | gpt_api/utils.py:63-78 | the `while not validate_api_key(api_key)` loop and the save dialogue after it compute `Prompting`: the result, EOFError when input ends before the dialogue does, TypeError for writing a `None` key, and the exact validation calls |
| GptUtils.DiscoverApiKey | gpt_api/utils.py:33-79 | `discover_api_key` computes `Discovery`, in order: registry, environment, file search, prompt. Its calls are exactly the validations, and the global key is unchanged |
| GptUtils.RegistryNeverAnswers | gpt_api/utils.py:8-37 | records that the registry lookup is dead code; this follows from the definition of the empty module registry, not from a proof about the search |
| GptUtils.EnvironmentKeyWins | gpt_api/utils.py:34-38 | with OPENAI_API_KEY set, that key is returned, no file is read and nothing is sent |
| GptUtils.JsonKeyAtHome | gpt_api/utils.py:39-51 | a `secrets.json` with the key in the home directory is found when no dotfile precedes it |
| GptUtils.DotfileKeyAtHome | gpt_api/utils.py:39-62 | a one-line home `.openai_api_key` is found first and stripped |
| GptUtils.GptModelOf | gpt_api/utils.py:82-94 | `GptModels(s)` is the member whose value is `s`, and ValueError when no member has that value |
| GptUtils.TokenLimitTable | gpt_api/utils.py:97-116 | the token table: 4000, 2048 and 8000. A member and its value give the same answer, a member without an entry is a KeyError, and a non-member or non-string is a ValueError |
| GptUtils.TokenLimit | gpt_api/utils.py:107-116 | `get_token_limit`; its contract is stated by the lemma `TokenLimitTable` |
| GptCore.QueryTypeOf | gpt_api/core.py:11-14 | `QueryType(x)` returns a member unchanged, converts a value only to the member that has it, and otherwise raises ValueError |
| GptCore.QueryTypeRoundTrip | gpt_api/core.py:11-14 | each member's value converts back to that member |
| GptCore.EnterExitRestores | gpt_api/core.py:45-54 | with no key stored, entering installs the client's key and exiting restores the guard and the global key exactly |
| GptCore.NestedEntryDetection | gpt_api/core.py:46-47 | a nested entry is refused exactly when the global key was set at the first entry |
| GptCore.InsertRequest | gpt_api/core.py:60-64 | `insert` proceeds, with `complete`'s request, exactly when `count` finds the marker once, and raises ValueError otherwise; `InsertAcceptsIffOneMarker` restates this in terms of marker positions |
| GptCore.InsertOneMarker | gpt_api/core.py:62-64 | any prompt holding the marker at exactly one position is accepted, with `complete`'s request |
| GptCore.InsertNoMarker | gpt_api/core.py:62-63 | a prompt without the marker is refused |
| GptCore.InsertTwoMarkers | gpt_api/core.py:62-63 | any prompt holding the marker at two distinct positions is refused with ValueError |
| GptCore.InsertTokenNoSelfOverlap | gpt_api/core.py:58 | `[insert]` cannot overlap itself, so `count` counts its positions |
| GptCore.InsertAcceptsIffOneMarker | gpt_api/core.py:60-64 | `insert` is accepted exactly when the marker occurs at one position only |
| GptCore.Route | gpt_api/core.py:108-145 | the routing raises TypeError exactly for a `model` keyword on a forced route or an `edit` without `instruction`; otherwise it picks the caller's model or the route's default, and forwards the caller's keywords without `model` (and without `instruction` for `edit`) |
| GptCore.ForcedModel | gpt_api/core.py:120-145 | `query_cheap` and `query_code` send their fixed model per query type, and a caller's `model` keyword is a TypeError |
| GptCore.QueryModelOverride | gpt_api/core.py:108-116 | `query` sends the caller's `model` keyword when there is one, and otherwise the endpoint's default |
| GptCore.EditNeedsInstruction | gpt_api/core.py:86-145 | every route to `edit` without an `instruction` keyword raises TypeError |
| GptCore.QueryFieldOverride | gpt_api/core.py:108-145 | through every query route, a field given as a keyword reaches the request's parameters, and every other field is the configuration's |
| GptCore.ConfigModelIgnored | gpt_api/core.py:66-105 | the configuration's `model` attribute never reaches a `complete` or an `edit` request |
| GptCore.GPTApi.constructor | gpt_api/core.py:41-42 | a new client has its key and nothing stored |
| GptCore.GPTApi.Enter | gpt_api/core.py:45-50 | `__enter__` as the guard function: RuntimeError when a key is stored, otherwise it saves the global key and installs its own |
| GptCore.GPTApi.Exit | gpt_api/core.py:52-54 | `__exit__` reinstalls the saved key and clears it |
| GptCore.GPTApi.Complete | gpt_api/core.py:66-84 | exactly one `Completion.create` under the client's key, built from a copy of the chosen configuration updated with the keywords. The caller's configuration is untouched, and the global key is restored |
| GptCore.GPTApi.Edit | gpt_api/core.py:86-105 | the same for `Edit.create`, with the prompt as input |
| GptCore.GPTApi.Insert | gpt_api/core.py:60-64 | the marker check runs before anything is sent; then it behaves as `complete` |
| GptCore.GPTApi.Dispatch | gpt_api/core.py:108-145 | the query-type routing shared by the three query methods performs `QueryRequest` |
| GptCore.GPTApi.Query | gpt_api/core.py:108-118 | `query` performs the standard route |
| GptCore.GPTApi.QueryCheap | gpt_api/core.py:120-132 | `query_cheap` performs the cheap route |
| GptCore.GPTApi.QueryCode | gpt_api/core.py:134-145 | `query_code` performs the code route |
| GptCore.NoKeyNoDiscovery | gpt_api/core.py:26-30 | without a key, a development mode or an environment key, `create` raises ValueError before any discovery |
| GptCore.ExplicitKeyUsed | gpt_api/core.py:25-33 | an explicit key is used as given, with no discovery |
| GptCore.NewClient | gpt_api/core.py:35-42 | `GPTApi(api_key)` settles its key by the same rule as `create`, so a key of `None` triggers discovery again |
| GptCore.GPTApiClass.Create | gpt_api/core.py:24-33 | get-or-create: the filed client for a known key, otherwise a new one filed under that key. Instances stay filed under their own keys, the global key is unchanged, and the calls are exactly those of discovery |
| GptApi.QueryGptMatchesQuery | gpt_api/api.py:14-24 | `query_gpt` sends exactly the request that the client's own `query` would send, or raises the same error |
| GptApi.GetGptApi | gpt_api/api.py:10-11 | `get_gpt_api` is `GPTApi.create` |
| GptApi.GptComplete | gpt_api/api.py:27-29 | the client for the key performs `complete` with the keywords bound as Python binds them |
| GptApi.GptEdit | gpt_api/api.py:32-34 | the client for the key performs `edit` |
| GptApi.GptInsert | gpt_api/api.py:37-39 | the client for the key performs `insert` |
| GptApi.QueryGpt | gpt_api/api.py:14-24 | an unknown query type, or an edit without an instruction, fails before any client is obtained and changes nothing; otherwise it forwards to the endpoint function |
| GptApi.QueryCheap | gpt_api/api.py:42-45 | the client for the key performs its `query_cheap`, and returns nothing |
| GptApi.QueryCode | gpt_api/api.py:48-51 | the client for the key performs its `query_code`, and returns nothing |
| OpenaiWrappers.OpenaiWrapper.SendQuery | openai_wrapper/wrapper.py:36-52 | `_query` leaves the global key set to the wrapper's key and sends one request |
| OpenaiWrappers.OpenaiWrapper.Query | openai_wrapper/wrapper.py:54-60 | the given configuration itself is updated with the keywords before the request; a `None` configuration raises AttributeError |
| OpenaiWrappers.OpenaiWrapper.QueryCheap | openai_wrapper/wrapper.py:63-66 | a `model` keyword is a ValueError that changes nothing; otherwise the configuration is left with the curie model and the request uses it |
| OpenaiWrappers.CheapQueryPersists | openai_wrapper/wrapper.py:54-66 | after a cheap query on the default configuration, a plain query with no keywords also asks for curie |
| OpenaiWrappers.DiscoveryAgreesWithUtils | openai_wrapper/wrapper.py:77-114 | when the two package directories hold the same key files, the wrapper's discovery up to the prompt gives the same key, or the same error, as `discover_api_key` |
| OpenaiWrappers.WrapperPromptTakesFirstAnswer | openai_wrapper/wrapper.py:115-126 | the wrapper's prompt takes the first answer without validation, then needs a reply to the save question and a path after a yes, else EOFError |
| OpenaiWrappers.WrapperRegistry.GetOpenaiWrapper | openai_wrapper/wrapper.py:84-130 | the filed wrapper when the looked-up key is filed. Otherwise a new wrapper is filed under the settled key: the file search over the wrapper's own locations, then the one prompt and the save dialogue, with EOFError when input ends first |
| OpenaiWrappers.DiscoveryReplacesFiled | openai_wrapper/wrapper.py:88-130 | a key found by the file search is never looked up, so an already filed wrapper is replaced by a new one |

## Left out

**External systems and I/O**
- The remote service is an oracle from calls to replies. HTTP, retries, rate limits and the engine listing's contents are not modelled. Because a reply depends on the call alone, the two validations of one typed key in the prompt loop (gpt_api/utils.py:63-68) always agree; a service that accepts a key on one call and refuses it on the next is not represented.
- `response.choices[0].text` is the first returned text. A reply with no choices is an IndexError, and everything else the service raises is one `RemoteError`.
- The save-to-file dialogues (gpt_api/utils.py:69-78, openai_wrapper/wrapper.py:118-126) read their replies from `Host.answers`, with EOFError when input has ended and TypeError when a `None` key is written. The file they write is not modelled: later searches do not see it, and errors from `open` on the chosen path are left out, as are the `print` messages.
- Reading a file that exists is assumed to succeed. Permission and decoding errors from `open`/`read`, and files that vanish between `exists` and `open`, are not modelled.
- The locations are opaque names: the home directory, each package's own directory and the working directory. When two of them are the same directory, the host lists the same text under both.

**Parts of the code not modelled**
- `get_token_count` (gpt_api/utils.py:119-123) calls into `transformers` and is left out.
- The `stream=True` responses are not modelled. A reply is always a list of texts.
- Floating-point attributes (`temperature`, `top_p`) are carried as opaque reals. No arithmetic is done on them.
- openai_wrapper/wrapper.py declares its own `QueryConfig` dataclass (lines 12-27), identical to gpt_api/query_config.py. The model uses one `QueryConfigs.QueryConfig` for both.
- `getpass.getuser()` at import time is the `user` parameter, and `GPT_API_DEV_MODE` is `Host.devMode`.
- Concurrency is left out. Two threads sharing `openai.api_key` are outside the model.
- Exceptions are modelled by kind only, not by message.

**Contracts stated differently from the source**
- KeyFiles.TxtLastEntryWins: the lemma covers lines ending in `\n` or `\r\n`. A lone `\r` ending, or another boundary character at a line's end, is read by `TxtProbe` as `splitlines()` does, but the lemma does not state it: a lone `\r` before an empty line ending in `\n` merges with it into one boundary.
- KeyFiles.JsonProbe: a `secrets.json` whose key field is a number, boolean, list or object would make the source return that non-string value as the key. The model stops with the `NonTextKey` error instead, because keys are strings throughout.
- OpenaiWrappers.OpenaiWrapper.QueryCheap: the configuration that `query_cheap` forwards inside `**kwargs` (`config=`) is an explicit parameter. `DEFAULT_QUERY_CONFIG` is passed when the caller gives none.
- GptUtils.DiscoverApiKey: the module registry is a parameter and the prompt is `Host.answers`. Running out of answers stands for end of input, and the loop is bounded by the number of answers.
- GptCore.GPTApiClass.Create: when discovery settles on `None`, `__init__` runs discovery a second time. The model replays the same `Host.answers` for it, whereas the program would read further input, so the contract assumes both runs settle on the same key.
