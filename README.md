# pr_inspector in Dafny

pr_inspector is an MCP server that builds code-review checklists for GitHub pull requests. This project models its core and proves properties of that model:

- **The pull-request locator and record** (`services/github_service.py`).
  - A link is split on `/`.
  - The organisation, repository and number are taken from segments 3, 4 and the last one.
  - The `PrDetails` record is built from that location and from the pull request the client returns.
  - The record's dataclass text (`str(pr_details)`) is modelled too, with Python's `repr` of strings.
- **The prompt and the tool reply** (`tools/checklist/tool.py`).
  - The prompt template is filled with `str.format`, modelled for literal text, `{name}` fields and doubled braces.
  - The tool replies with a fixed text that names the link.
- **The strict-mode schema patch and the completion request** (`services/llm_service.py`).
  - A JSON schema is patched recursively: every object-typed dict gets `additionalProperties: false`.
  - The patched schema is wrapped in the `response_format` directive sent to the provider.
- **The service registry and its services** (`services/providers.py`, `services/openai_service.py`, `services/github_service.py`).
  - The registry is a memoising dict from service names to service objects.
  - Each service is built from the environment store and authenticated once.
- **The environment store** (`env_loader.py`): a replaceable dict of two credentials.
- **The server configuration** (`config.py`): host, port and transport projected from the loaded YAML document, each with its default.
- **The greeting tool and its HTTP adapter** (`server.py`, `server_http.py`).
  - The adapter checks a shared secret.
  - The request body is parsed, and the name defaults to "World".
  - The greeting is returned as plain text.

Pure code becomes functions and lemmas. Objects whose fields change become classes:

- `EnvLoader.EnvStore`
- `GithubService.GithubService`
- `OpenAiService.OpenAIService`
- `Providers.ServiceRegistry`

Python values become these Dafny types:

- A JSON or YAML value is the `Json` datatype.
- Dicts are `map`s.
- Strings are `seq<char>`.
- `None` is `Option.None`.
- Exceptions are the `Failure` case of `Result`.

Everything the code does through a library becomes a parameter:

- the GitHub lookup;
- the parsed YAML document;
- the parsed request body;
- Python's `str()` of a JSON dict or list.

Where the system's documentation and its code disagree, the model follows the code:

- **Rejected links.** The documentation names a `MalformedReferenceError` for rejected links. The code lets Python raise `IndexError` (fewer than five segments) or `ValueError` (the last segment is not an integer literal). `GithubService.FetchError` models those two.
- **Sign of the PR number.** The documentation asks for a positive number. The code accepts any integer literal, including `-3` and `0`. `LocatePr` accepts them as well.
- **Tool reply.** The documentation describes a rendered markdown checklist. The code builds the prompt, discards it, and replies `Checklist for PR: <url>`. `ChecklistTool.CreatePrChecklistImpl` models that reply.
- **PR body.** The record's `pr_body` can be `None` (a pull request without a description), so it is an `Option<string>`.

Each source function corresponds to one Dafny function that computes it:

- `_fix_schema_for_openai` is `LlmService.FixSchemaForOpenai`, which applies `LlmService.Patch` (the inner `patch` on a dict). `LlmService.Visit` handles one dict value or list.
- The `response_format_dict` of `chat_completion` is `LlmService.ResponseFormatDirective`; `chat_completion` itself is `LlmService.ChatCompletion`.
- `str.split` is `PyText.Split`, `int()` is `PyText.ParseInt`, `str(n)` of an integer is `PyText.IntToString`, `str.lower` is `PyText.Lower`, and substring `in` is `PyText.Contains`.
- `repr` of a string is `PyRepr.Repr`; the dataclass text `str(pr_details)` is `PrDetailsText.DetailsRepr`.
- `fetch_pr_details` is `GithubService.FetchPrDetails`, with the link decomposition in `GithubService.LocatePr`.
- `str.format` with keyword arguments is `PyFormat.Format`. `generate_prompt` is `ChecklistTool.GeneratePrompt` (through `ChecklistTool.PromptFor`), and `_create_pr_checklist_impl` is `ChecklistTool.CreatePrChecklistImpl`.
- `load_config` is `Config.LoadConfig`, `get_server_config` is `Config.GetServerConfig`, and its three-key dict is `Config.Project`.
- `say_hello` is `Server.SayHello`, and `say_hello()` with the default name is `Server.SayHelloDefault`.
- `verify_auth` is `ServerHttp.VerifyAuth`, and `say_hello_endpoint` is `ServerHttp.SayHelloEndpoint`.

## Model

| member | source | states |
|---|---|---|
| GithubService.LocatePr | pr_inspector/services/github_service.py:28-31 | fewer than five `/`-segments is an IndexError, whatever the last segment; otherwise, a last segment that is not an integer literal is a ValueError carrying that segment; success exactly when neither happens, and then org, repo and number are segment 3, segment 4 and the parsed last segment |
| GithubService.LocateSegments | pr_inspector/services/github_service.py:28-31 | any link joined from at least five separator-free segments whose last is `str(n)` locates segment 3, segment 4 and `n`, for every integer `n` of at most 4300 digits, negative ones included |
| GithubService.LocateSplit | pr_inspector/services/github_service.py:28-31 | a link that splits into at least five segments, the last being `str(n)`, locates `n` |
| GithubService.CanonicalLinkSegments | pr_inspector/services/github_service.py:28 | `https://host/org/repo/pull/d` is the join of the seven segments `https:`, ``, host, org, repo, `pull`, d |
| GithubService.LocateCanonicalLink | pr_inspector/services/github_service.py:27-31 | `https://<host>/<org>/<repo>/pull/<n>` with slash-free host, org and repo locates exactly `(org, repo, n)` |
| GithubService.ShortLinkIsIndexError | pr_inspector/services/github_service.py:29-30 | the short link `https://x/y` has four segments and is an IndexError |
| GithubService.TrailingSlashIsValueError | pr_inspector/services/github_service.py:28-31 | a trailing `/` leaves an empty last segment, which is a ValueError for `""` |
| GithubService.FetchPrDetails | pr_inspector/services/github_service.py:27-45 | a locator error propagates unchanged; otherwise the client is asked for `org/repo` and the number, its failure propagates, and on success the record holds the located parts with the pull request's title and body |
| GithubService.FetchedDetailsMatchLink | pr_inspector/services/github_service.py:27-45 | a fetched record's org and repo are segments 3 and 4 of the link, and its number is what the last segment parses to |
| GithubService.GithubService.constructor | pr_inspector/services/github_service.py:20-22 | a service is built only from a non-empty token, which becomes the client's token, and authenticate has not run yet |
| GithubService.NewGithubService | pr_inspector/services/github_service.py:20-22 | `GithubService()` fails exactly when GITHUB_TOKEN is unset or empty, which `Auth.Token` rejects; otherwise it yields a fresh service holding the store's token, not yet authenticated |
| GithubService.OverlongNumberIsValueError | pr_inspector/services/github_service.py:31 | a link whose last segment has more than 4300 digits is a ValueError carrying that segment, as CPython's conversion limit makes `int()` raise |
| GithubService.GithubService.Authenticate | pr_inspector/services/github_service.py:24-25 | authenticate changes nothing but the count of its calls |
| PrDetailsText.DetailsReprInjective | pr_inspector/services/github_service.py:10-16 | the dataclass text `PrDetails(org_name=..., ..., pr_body=...)` determines every field: equal texts mean equal records |
| PrDetailsText.BodyReprPrefixFree | pr_inspector/services/github_service.py:16 | the text of `pr_body` (`None` or a quoted string), followed by anything, determines both the body and what follows |
| PyText.SplitThenJoin | pr_inspector/services/github_service.py:28 | the parts of `s.split(c)` contain no `c`, and joining them with `c` gives back `s` |
| PyText.JoinThenSplit | pr_inspector/services/github_service.py:28 | splitting the join of at least one `c`-free part gives back exactly those parts |
| PyText.ParseInt | pr_inspector/services/github_service.py:31 | `int()` succeeds exactly on an optional sign followed by between 1 and 4300 ASCII digits (CPython's conversion limit); a leading `-` gives a non-positive value, otherwise non-negative |
| PyText.ParseIntPadding | pr_inspector/services/github_service.py:31 | `int()` reads `0d` and `+d` as `d` and `-d` as the negation of `d`, for every digit string `d` (so `int("042") == 42`, `int("-0") == 0`) |
| PyText.ParseIntCanonical | pr_inspector/services/github_service.py:31 | a digit string without leading zeros is accepted and is exactly `str` of the value `int()` reads from it; with `ParseIntPadding`, this fixes the value of every accepted literal |
| PyText.ParseIntOfIntToString | pr_inspector/services/github_service.py:31 | `int(str(n)) == n` for every integer of at most 4300 digits |
| PyText.OverlongLiteralRejected | pr_inspector/services/github_service.py:31 | `int()` of more than 4300 digits fails |
| PyText.IntToStringPrefixFree | pr_inspector/services/github_service.py:14 | `str(n)` followed by text that does not start with a digit determines `n` and that text |
| PyText.Lower | pr_inspector/services/llm_service.py:81 | `lower()` keeps the length, maps every ASCII capital to its lower-case letter, leaves every other character alone, and leaves no ASCII capital |
| PyText.ContainsAt | pr_inspector/server_http.py:71 | substring `in` holds exactly when the substring occurs at some index |
| PyRepr.ReadReprRepr | pr_inspector/services/github_service.py:10-16 | reading a quoted string back from `repr(s)` followed by anything gives `s` and exactly what follows |
| PyRepr.ReprPrefixFree | pr_inspector/services/github_service.py:10-16 | `repr(a) + x == repr(b) + y` implies `a == b` and `x == y` |
| PyRepr.ReprInjective | pr_inspector/services/github_service.py:10-16 | distinct strings have distinct `repr`s |
| PyRepr.ReadEscapeAll | pr_inspector/services/github_service.py:10-16 | the escaped body of a quoted string, then the closing quote, reads back to the original string |
| LlmService.PatchIsStrict | pr_inspector/services/llm_service.py:24-35 | after the patch, every object-typed dict the traversal reaches carries `additionalProperties: false` |
| LlmService.VisitIsStrict | pr_inspector/services/llm_service.py:29-35 | a visited dict value, or each dict item of a visited list, is strict |
| LlmService.PatchOnlySetsAdditionalProperties | pr_inspector/services/llm_service.py:26-35 | the patch keeps shape, scalars and keys, adding only `additionalProperties` to object-typed dicts |
| LlmService.VisitOnlySetsAdditionalProperties | pr_inspector/services/llm_service.py:29-35 | visiting a value changes it only as the patch relation allows; non-dict list items stay as they are |
| LlmService.ValuePatchedFromScalar | pr_inspector/services/llm_service.py:29-35 | a value related by the patch relation keeps its kind, and a scalar is unchanged |
| LlmService.PatchIsUnique | pr_inspector/services/llm_service.py:15-38 | the patched schema is the only strict tree that differs from the input only in `additionalProperties` entries |
| LlmService.VisitIsUnique | pr_inspector/services/llm_service.py:29-35 | the visited value is the only strict value that the patch relation connects to the input |
| LlmService.StrictIsFixedPoint | pr_inspector/services/llm_service.py:24-35 | a schema that is already strict is left as it is |
| LlmService.StrictValueIsFixedPoint | pr_inspector/services/llm_service.py:29-35 | a strict value is left as it is by the visit |
| LlmService.PatchFixesExactlyStrict | pr_inspector/services/llm_service.py:24-35 | the patch leaves a schema unchanged if and only if it is strict |
| LlmService.PatchIdempotent | pr_inspector/services/llm_service.py:15-38 | patching twice gives the same schema as patching once |
| LlmService.OverwritesAdditionalProperties | pr_inspector/services/llm_service.py:26-27 | an object-typed dict ends with `additionalProperties: false`, even when it had `true` |
| LlmService.DoublyNestedDictNotVisited | pr_inspector/services/llm_service.py:32-35 | a dict in a list in a list is not reached: an object-typed dict there gets no `additionalProperties` |
| LlmService.TopLevelListUntouched | pr_inspector/services/llm_service.py:24-25 | a schema that is a list is returned unchanged |
| LlmService.VisitKeepsKind | pr_inspector/services/llm_service.py:29-35 | visiting keeps a value's kind and leaves scalars unchanged |
| LlmService.PatchKeepsType | pr_inspector/services/llm_service.py:26-27 | the keys of a patched dict are its old keys, plus `additionalProperties` when object-typed, and its object-typedness is unchanged |
| SampleSchemas.DefsArePatched | pr_inspector/services/llm_service.py:29-31 | in a model schema with a `$defs` section, the root and each object-typed definition get `additionalProperties: false`, and the section keeps its keys |
| LlmService.ResponseFormatDirective | pr_inspector/services/llm_service.py:70-85 | the directive has exactly `type: json_schema` and `json_schema` with exactly the lower-cased class name, `strict: true` and the patched schema; that schema is strict, and so is the whole directive when the schema is a dict |
| LlmService.ChatCompletion | pr_inspector/services/llm_service.py:49-98 | one request with the given messages and the given model, or `gpt-4o-mini-2024-07-18` when the caller leaves the default; with a response model it carries that model's directive, without one no response format |
| PyFormat.FormatText | pr_inspector/tools/checklist/tool.py:78 | `format` copies brace-free text unchanged, whatever the arguments |
| PyFormat.FormatField | pr_inspector/tools/checklist/tool.py:78 | a keyword field `{name}` is replaced by its argument, which is not scanned for braces; a missing argument is a KeyError naming the field |
| PyFormat.FormatPositionalField | pr_inspector/tools/checklist/tool.py:78 | an empty or numeric field (`{}`, `{0}`) is an IndexError under keyword-only formatting, even when a keyword argument is spelt like the number |
| PyFormat.FormatTwoFields | pr_inspector/tools/checklist/tool.py:78 | brace-free text around two keyword fields: both arguments are substituted verbatim; a missing first field is its KeyError, then a missing second field is its KeyError |
| PromptTemplates.PromptHeadBraceFree | pr_inspector/tools/checklist/tool.py:16-23 | the prompt text before `{checklist_template}` has no brace |
| PromptTemplates.PromptMiddleBraceFree | pr_inspector/tools/checklist/tool.py:25-27 | the prompt text between the two fields has no brace |
| PromptTemplates.PromptTailBraceFree | pr_inspector/tools/checklist/tool.py:29-32 | the prompt text after `{pr_details}` has no brace |
| ChecklistTool.FormatPrompt | pr_inspector/tools/checklist/tool.py:16-32 | the prompt template has exactly the fields `checklist_template` and `pr_details`: with both arguments it formats to the template's pieces around them; a missing one is a KeyError naming it |
| ChecklistTool.PromptFor | pr_inspector/tools/checklist/tool.py:76-78 | the prompt is the template's opening text, the checklist, the middle text, the record's dataclass text and the closing text, each argument copied verbatim |
| ChecklistProperties.ChecklistInPrompt | pr_inspector/tools/checklist/tool.py:24 | the checklist occurs verbatim in the prompt right after the opening text |
| ChecklistProperties.DetailsInPrompt | pr_inspector/tools/checklist/tool.py:28 | the record's text occurs verbatim after the checklist and the middle text |
| ChecklistProperties.PromptDeterminesDetails | pr_inspector/tools/checklist/tool.py:76-78 | for a fixed checklist, distinct records give distinct prompts |
| ChecklistTool.CreatePrChecklistImpl | pr_inspector/tools/checklist/tool.py:81-104 | the tool replies exactly when the fetch succeeds, fetch errors propagate unchanged, and the reply is `Checklist for PR: ` followed by the link |
| ChecklistProperties.ReplyIgnoresPullRequest | pr_inspector/tools/checklist/tool.py:102-104 | two successful calls for one link reply the same, whatever the pull requests hold |
| ChecklistProperties.BadLinkNoReply | pr_inspector/tools/checklist/tool.py:102 | a link the locator rejects gives the locator's error and no reply |
| Config.LoadConfig | pr_inspector/config.py:8-29 | a missing file is a FileNotFoundError naming the path; otherwise the parsed document is returned as it is |
| Config.GetServerConfig | pr_inspector/config.py:32-51 | a missing file's error propagates; success, with exactly the keys host, port and transport, exactly when the document is a mapping whose `server` section is a mapping or absent; a present key is copied, an absent one takes its default (`127.0.0.1`, `8000`, `http`) |
| Config.ProjectionIsIdempotent | pr_inspector/config.py:45-51 | a document whose server section is an earlier result projects to that same result |
| Config.OtherKeysDropped | pr_inspector/config.py:45-51 | other top-level keys, and other keys in the server section, do not affect the result |
| Server.GreetingRoundTrip | pr_inspector/server.py:10-21 | a greeting is the fixed prefix, the name and the fixed suffix, and the name can be read back from it |
| Server.GreetedNameIsExact | pr_inspector/server.py:21 | a text the reader accepts as a greeting is the greeting of the name it reads |
| Server.SayHelloInjective | pr_inspector/server.py:21 | distinct names give distinct greetings |
| Server.DefaultGreeting | pr_inspector/server.py:10-21 | the default greeting is `Hello, World! Welcome to PR Inspector.` |
| ServerHttp.VerifyAuth | pr_inspector/server_http.py:22-42 | a request passes exactly when the secret is set and the header equals it; an unset secret is a 500 whatever the header; otherwise a missing, empty or different header is a 401 |
| ServerHttp.RequestBody | pr_inspector/server_http.py:68-76 | the body is the parsed JSON when the content type mentions `application/json` and parsing succeeds, and `{}` otherwise |
| ServerHttp.RequestName | pr_inspector/server_http.py:77 | a dict body with a `name` entry gives exactly that entry, whatever its JSON type; a dict body without one gives `World`; a body that is not a dict has no `get` and fails with AttributeError |
| ServerHttp.PyStr | pr_inspector/server.py:21 | `str()` of a decoded JSON value: a string is itself, `null` is `None`, a boolean `True` or `False`, and an integer is `str(n)`, its canonical decimal digits, which read back to it when within 4300 digits |
| ServerHttp.ToolResponse | pr_inspector/server_http.py:79-87 | a tool result is returned as plain text; a tool error becomes a 500 whose detail is `Error calling tool: ` followed by the message |
| ServerHttp.SayHelloEndpoint | pr_inspector/server_http.py:51-87 | an authentication failure is raised as it is; a body that is not a dict is an unhandled error; otherwise the reply is the greeting of the requested name, passed through `str()` (`PyStr`) |
| ServerHttp.NullNameGreetsNone | pr_inspector/server_http.py:77-81 | `{"name": null}` is greeted as `None` |
| ServerHttp.DefaultsToWorld | pr_inspector/server_http.py:69-77 | an authenticated request without a usable JSON body gets the default greeting |
| ServerHttp.NoSecretNoGreeting | pr_inspector/server_http.py:32-36 | without a configured secret, no request reaches the tool |
| Providers.ServiceRegistry.constructor | pr_inspector/services/providers.py:7 | the registry starts empty |
| Providers.ServiceRegistry.GetGithubService | pr_inspector/services/providers.py:10-16 | a first request with a usable GITHUB_TOKEN builds the service from it, authenticates it once and stores it under `github`; with the token unset or empty it raises and stores nothing; later requests return the stored object and change nothing; no entry is ever lost |
| Providers.ServiceRegistry.GetOpenaiService | pr_inspector/services/providers.py:19-25 | a first request with OPENAI_API_KEY set builds the service, authenticates it (creating its client from the key) and stores it under `openai`; with the key unset it raises OpenAIError and stores nothing; later requests return the stored object and change nothing |
| Providers.RepeatedRequestsShareOneObject | pr_inspector/services/providers.py:10-25 | with both credentials set, repeated requests succeed and return one object per service, and the GitHub service is authenticated exactly once |
| Providers.MissingCredentialsAreNotCached | pr_inspector/services/providers.py:10-25 | with neither credential set, every request fails and the registry stays empty, so each request constructs again |
| OpenAiService.OpenAIService.constructor | pr_inspector/services/openai_service.py:11-13 | the key is the store's OPENAI_API_KEY (None when unset), and there is no client yet |
| OpenAiService.OpenAIService.Authenticate | pr_inspector/services/openai_service.py:15-18 | the first call creates a client from the key, or raises OpenAIError and leaves no client when the key is unset; later calls keep the existing client |
| EnvLoader.EnvStore.constructor | pr_inspector/env_loader.py:8-11 | the store holds exactly GITHUB_TOKEN and OPENAI_API_KEY with the process values (None when unset) |
| EnvLoader.EnvStore.LoadEnvVariables | pr_inspector/env_loader.py:13-20 | a given map replaces the store wholesale, None keeps it, and the result is a copy of the store |
| EnvLoader.EnvStore.FetchEnvVariable | pr_inspector/env_loader.py:22-26 | a stored name gives its value, and any other name gives None |
| EnvLoader.EnvStore.InjectThenFetch | pr_inspector/env_loader.py:13-26 | fetching right after an injection reads the injected map |

## Left out

- The GitHub client (`Github`, `get_repo`, `get_pull`): it is a network library. Its lookup is the parameter `lookup` of `FetchPrDetails`, and its only observable effect is a title and body, or an error. Constructing the client is modelled only as far as `Auth.Token` rejecting an unset or empty token.
- The progress `print` in `fetch_pr_details` and the `breakpoint()` in `generate_prompt`: they are console and debugger I/O with no effect on results.
- LiteLLM's `completion` call and the OpenAI client's `chat.completions.create` (`OpenAIService.chat_completion`): they belong to the provider. `LlmService.ChatCompletion` models the arguments `chat_completion` passes, and returns them instead of a response. The `**kwargs` pass-through is not modelled.
- `LLMService.__init__` (setting `litellm.api_key`) and `get_llm_service`: global library state under a thread lock. Concurrency is not modelled.
- Providers.ServiceRegistry: the getters are modelled as sequential calls. The source takes no lock, so two concurrent first calls can each construct and authenticate a service, and the later store wins. The model's "built and authenticated once" holds only for calls that do not overlap. Interleavings are not modelled.
- Config.LoadConfig: the default argument `config_path="config.yaml"` is not modelled. The path is always an explicit argument, and it appears only in the error message.
- Pydantic's `model_json_schema()`: the schema is an input of `ResponseModel`. `tools/checklist/models.py` is used only for the shape of such a schema, in `SampleSchemas`.
- YAML parsing and the file-existence test in `load_config`: this is file I/O, so the parsed document, or None for a missing file, is a parameter.
- `load_dotenv` and `os.getenv` in `env_loader.py`: these are process I/O, so their results are the constructor's arguments.
- Aliasing of the injected map in `load_env_variables`: Dafny maps are values, so the store holds the map's contents rather than the caller's very object.
- FastAPI routing, header extraction, `request.json()`, the `/health` endpoint, and `mcp.run` / `main`: these are framework and transport. The secret, the header, the content type and the parsed body are parameters of `SayHelloEndpoint`.
- Python's `str()` of a JSON dict or list name: it is the parameter `str` of `SayHelloEndpoint`. Scalars are modelled by `PyStr`.
- OpenAiService.OpenAIService.Authenticate: `OpenAI(api_key=None)` falls back to the process's own OPENAI_API_KEY before raising. The model treats an unset key in the store as failing, since the store is loaded from that same variable.
- PyText.IntToString: it is total, while CPython's `str(n)` raises ValueError above 4300 digits. That limit appears as `WithinStrLimit`: a precondition of the round-trip lemmas, and the condition of `ServerHttp.PyStr`'s read-back clause.
- `create_pr_checklist` (`tools/checklist/tool.py:107-114`).
  - It only forwards to `_create_pr_checklist_impl`, which `ChecklistTool.CreatePrChecklistImpl` models.
  - Its dependency injection, and the `get_github_service` import from a module that does not define it, are framework wiring.
  - `pr_inspector/mcp_instance.py` is not part of this model.
- The prompt `generate_prompt` builds inside `_create_pr_checklist_impl`: the code discards it, so `CreatePrChecklistImpl` does not compute it.
- ChecklistTool.GeneratePrompt: it carries no contract of its own. Its body is `PromptFor` applied to the 2,072-character checklist literal, and the contract on `PromptFor` holds for every checklist text, so it covers `GeneratePrompt`. Deriving it for that literal has the prover expand the literal in full.
- LlmService.ResponseFormatDirective: the whole directive is proved strict only when the schema is a dict. A schema that is a list is patched as it is, and the model claims nothing beyond what the code does.
- PyRepr.Repr: non-printable characters other than ASCII controls and DEL (Unicode categories that Python also escapes) are written unescaped.
- PyText.Lower: only ASCII capitals are lowered, not the full Unicode case mapping.
- PyText.ParseInt: only an optional `+` or `-` followed by at most 4300 ASCII digits is accepted. Surrounding whitespace, `_` digit separators and non-ASCII digits, which `int()` also accepts, are not modelled.
- PyFormat.Format: conversions (`!r`), format specs (`:>10`), and attribute and index fields (`{a.b}`, `{a[0]}`) are not interpreted. A field containing `.`, `[`, `!` or `:` is looked up as a plain keyword, unlike Python, so `FormatField` and `FormatTwoFields` are stated only for keyword names (`KeywordName`). Numeric and empty fields are modelled: they raise IndexError. The template's two fields are plain keyword names.
- Deep copy in `_fix_schema_for_openai`: `Json` values are immutable, so the caller's schema cannot change and no lemma is needed. For the same reason, every function here is deterministic.
- Dict insertion order: JSON objects are maps, so key order in the patched schema and in the directive is not modelled.
- ServerHttp.PyStr: JSON floats cannot be represented, because `Json` numbers are integers. So `str()` of a float name (`{"name": 1.5}` greets `1.5` in the source) is not modelled.
- Shadowed definition: the duplicate top-level `server.py` repeats `pr_inspector/server.py`.
- Stub and re-exports: `tools/checklist.py` is a placeholder returning the same fixed reply, and `services/__init__.py` only re-exports names. Neither has behaviour of its own.
- Not core: the test clients and the end-to-end test script, and the alternative prompt text in `tools/checklist/prompt.py`, which nothing in the core uses.
- Documented but not implemented: the documentation's diff truncation, markdown rendering, response validation and error taxonomy do not exist in the code, so there is nothing to model.
