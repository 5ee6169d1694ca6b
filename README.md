# tmux-bot core, modelled in Dafny

tmux-bot is a terminal chat assistant. Its agents get their language model
from a configuration in which each agent role ("primary", "devops", ...)
names a profile, and each profile names a provider unit
(`tmuxbot.providers.<provider>`), an API key, a model name and optional
endpoint and settings. This project models the parts of the program that
decide what happens between the configuration document and the model handle.
It also models the conversation buffer and the comment stripping used when
JSON configuration is converted to YAML.

- **Runtime** (`runtime.dfy`): the Python values the configuration is made of
  (`None`, booleans, integers, floats, strings, lists and dicts with their
  insertion order), Python truthiness, `str`/`repr`, `int()` on decimal
  text, dict lookup and assignment, exceptions with their class hierarchy and
  `__cause__`, and log records.
- **Settings** (`settings.dfy`): the `ProfileConfig`, `AgentConfig` and
  `Config` records, plus `load_config` from the loaded document onwards. That
  covers the two positive-integer environment overrides, conversion of the
  `profiles` and `agents` sections into records, defaults of 100 and 300,
  and which construction errors are caught (`TypeError`, `ValueError` give
  `None`) and which are not (`KeyError`, `AttributeError`).
- **Providers**, **OpenAI**, **MockProvider** (`providers.dfy`, `openai.dfy`,
  `mock_provider.dfy`): the provider contract `create_model(profile)`. Also
  the OpenAI provider (validation order, then SDK construction wrapped as
  `ConnectionError`) and the test double with its always-failing variant.
- **Factory** (`factory.dfy`): `ModelFactory.create_model` resolves a role to
  a profile and then to a provider unit. It maps the unit's failures onto
  `ValueError` and `RuntimeError` by exception class.
- **Context** (`context.dfy`): `ConversationContext`, a class whose message list
  is appended to and truncated in place ("keep the first message plus the
  newest ones"). Python's slice semantics are reproduced exactly, including
  the capacities at which the bound does not hold.
- **YamlUtils** (`yaml_utils.dfy`): `convert_json_comments_to_yaml` and its
  recursive `add_comments`. `_comment`/`_comments` keys are removed from
  every dict reachable through dict values and turned into `#` lines in
  pre-order; dicts inside lists are copied as they are. The YAML dumper is a
  parameter.

The program's environment is turned into parameters:

- the parsed configuration document and the two environment variables, for
  `load_config`;
- a registry from unit names to units, for `importlib.import_module` and
  `getattr`;
- the possibly-raising SDK constructors, for the OpenAI provider;
- a function, for `yaml.safe_dump`.

Logging is a returned list of records.

The code and its documentation disagree in three places. The model follows
the code in all of them:

- `create_model`'s docstring (tmuxbot/model/factory.py:52-54) says a unit
  without `create_model` raises `ValueError`. The `ValueError` raised at
  line 89 is inside the `try`, so the generic `except Exception` at lines
  104-107 turns it into `RuntimeError` (`Factory.MissingEntryIsRuntimeError`).
- The conversation buffer is described as bounded by `max_messages`. The code
  bounds it only when `max_messages >= 2`:
  - At 1 the list grows, repeating its first message.
  - At 0 nothing is ever dropped.
  - Below 0 the message just added can be lost.

  See `Context.CapacityOneGrows`, `Context.CapacityZeroKeepsAll` and
  `Context.NegativeCapacityDropsNewest`.
- The comment conversion is described as stripping comments from the whole
  document. `add_comments` recurses only into dict values
  (tmuxbot/utils/yaml_utils.py:64-68), so a dict inside a list keeps its
  `_comment` key and contributes no `#` line (`YamlUtils.ListsAreNotVisited`).

## Model

| member | source | states |
|---|---|---|
| Runtime.Truthy | tmuxbot/providers/openai.py:31-34 | Python truthiness, by definition: `None`, `False`, zero, and empty strings, lists and dicts are false |
| Runtime.Text | tmuxbot/model/factory.py:73 | `str(v)` as an f-string renders it, by definition: `None`, `True`/`False`, decimal integers, the string itself, lists and dicts with `repr` items |
| Runtime.IsInstance | tmuxbot/model/factory.py:94-107 | the exception class test of an `except` clause, by definition: the class itself, `Exception` for all, and `ImportError` for `ModuleNotFoundError` |
| Runtime.ParseInt | tmuxbot/config/settings.py:71 | `int()` on an override string: a number exactly for one or more ASCII digits after an optional `+`/`-`, anything else refused; a `-` gives a non-positive number, otherwise non-negative |
| Runtime.PlusAndZerosIgnored | tmuxbot/config/settings.py:71 | `int("+5") == int("5")` and a leading zero does not change the value |
| Runtime.RejectedTexts | tmuxbot/config/settings.py:71-75 | the empty text, a bare sign, a fraction, a word and inner whitespace are all refused; a set, non-empty one of them takes the warning path (an empty one is skipped before `int()` runs) |
| Runtime.ParseDecimal | tmuxbot/config/settings.py:71 | `int()` reads back every integer written in decimal |
| Runtime.DigitsRoundTrip | tmuxbot/config/settings.py:71 | the digits of a natural number read back as that number |
| Runtime.LeadingZeroValue | tmuxbot/config/settings.py:71 | a leading zero does not change the number a digit string denotes |
| Runtime.GetPresent | tmuxbot/config/settings.py:94 | `dict.get` finds a value exactly when the key is among the dict's keys |
| Runtime.GetFindsFirst | tmuxbot/config/settings.py:94 | a value found by `dict.get` is the one stored under the key's first occurrence |
| Runtime.PutLaws | tmuxbot/utils/yaml_utils.py:66-68 | `d[key] = v`: afterwards the key maps to `v` and every other key to what it did before; an existing key keeps its position, a new one goes last |
| Settings.EnvOverride | tmuxbot/config/settings.py:67-86 | a set, non-empty override that parses to an integer > 0 replaces the document's value and touches no other key; otherwise the document is unchanged; exactly an unparsable non-empty value logs exactly one "Invalid <VAR> value: <text>" warning |
| Settings.Subscript | tmuxbot/config/settings.py:97-99 | `info[key]` succeeds exactly on a dict holding the key; a dict without it raises `KeyError('key')`, a non-dict `TypeError` |
| Settings.ProfileFrom | tmuxbot/config/settings.py:96-102 | a profile entry becomes a record exactly when it is a dict with `provider`, `api_key` and `model`; `base_url` and `settings` default to `None`; a non-dict raises `TypeError`, a missing key the `KeyError` of the first one missing in the order they are read |
| Settings.AgentFrom | tmuxbot/config/settings.py:108-112 | an agent entry becomes a record exactly when it is a dict with `profile`; `instructions` and `fallbacks` default to `None`; the error cases as for profiles |
| Settings.Section | tmuxbot/config/settings.py:94-95 | an absent section is empty, a dict section gives its entries in order, any other value raises `AttributeError` on `.items()` |
| Settings.ConvertFrom | tmuxbot/config/settings.py:93-112 | the conversion loop from an entry on: what it raises is the error of converting one of the remaining entries |
| Settings.ConvertSucceedsIff | tmuxbot/config/settings.py:95-102 | the conversion loop succeeds exactly when every entry converts |
| Settings.ConvertRaisesFirstError | tmuxbot/config/settings.py:95-102 | the loop raises the error of the first entry that fails to convert |
| Settings.ConvertContents | tmuxbot/config/settings.py:95-102 | after a successful loop each entry's record sits under the entry's key, and there are no other keys besides those there before |
| Settings.Build | tmuxbot/config/settings.py:91-121 | construction raises only `AttributeError`, `TypeError` or `KeyError` |
| Settings.Handle | tmuxbot/config/settings.py:122-125 | a `TypeError`/`ValueError` gives `None` and appends one "Failed to load config: <message>" warning; anything else propagates unchanged with nothing logged |
| Settings.LoadConfig | tmuxbot/config/settings.py:67-125 | the procedure, reading the sections and running the two conversion loops with `Convert`, returns what `Load` specifies, log included |
| Settings.Convert | tmuxbot/config/settings.py:93-112 | each of the two loops filling the `profiles` and `agents` dicts computes exactly `ConvertFrom` from the first entry, stopping at the first entry that raises |
| Settings.LoadedScalars | tmuxbot/config/settings.py:67-118 | a loaded config's `max_history`/`conversation_timeout` is the valid override, else the document's value verbatim (non-positive included), else 100 / 300 |
| Settings.LoadLog | tmuxbot/config/settings.py:67-125 | the log starts with the override warnings in order; one more record appears exactly when `None` is returned |
| Settings.BuildSucceedsIff | tmuxbot/config/settings.py:91-121 | construction returns a config exactly when both sections are absent or dicts and every entry has its required keys |
| Settings.BuildContents | tmuxbot/config/settings.py:93-119 | the built config has one record per section entry, under the same key, and no other keys |
| Settings.BuildStopsAtProfile | tmuxbot/config/settings.py:96-102 | construction raises the error of the first profile entry that fails to convert; it is a caught error exactly when that entry is not a dict, and a `KeyError` otherwise |
| Settings.BadProfileEntry | tmuxbot/config/settings.py:96-125 | the first bad profile entry gives `None` plus a warning when it is not a dict (`TypeError` caught) and an uncaught `KeyError` when it lacks a key |
| Settings.BuildStopsAtAgent | tmuxbot/config/settings.py:104-112 | once the profiles convert, construction raises the error of the first agent entry that fails; caught exactly when that entry is not a dict, `KeyError('profile')` otherwise |
| Settings.BadAgentEntry | tmuxbot/config/settings.py:104-125 | the first bad agent entry gives `None` plus a warning when it is not a dict, and the uncaught `KeyError('profile')` when it is a dict without `profile` |
| Settings.SectionNotDict | tmuxbot/config/settings.py:94-122 | a non-dict `profiles` section raises `AttributeError`, not caught |
| Settings.AgentsSectionNotDict | tmuxbot/config/settings.py:104-122 | once the profiles convert, a non-dict `agents` section raises `AttributeError`, not caught |
| OpenAI.CreateModel | tmuxbot/providers/openai.py:8-49 | a profile failing validation raises `ValueError` with the first failing check's message (key, then model, then settings shape), unwrapped; after validation any raise is a `ConnectionError` "Failed to create OpenAI model: ..." whose cause is the SDK's first failure; on success the SDK objects carry the profile's fields |
| OpenAI.CreateModelSucceedsIff | tmuxbot/providers/openai.py:31-49 | success exactly when validation passes and neither SDK constructor raises |
| OpenAI.HandleRoundTrip | tmuxbot/providers/openai.py:36-47 | the profile's key, model, endpoint and settings are read back unchanged from the handle |
| MockProvider.CreateModel | tests/model/mock_provider.py:9-35 | `ValueError` "API key is required" / "Model name is required" in that order; success exactly when both are truthy |
| MockProvider.MockRoundTrip | tests/model/mock_provider.py:28-33 | the mock's recorded fields are the profile's, `settings = None` included |
| MockProvider.CreateModelWithError | tests/model/mock_provider.py:38-40 | every profile raises a plain `Exception` "Mock provider error for testing" |
| Factory.FindProfile | tmuxbot/model/factory.py:67-71 | `profiles.get(name, None)` finds a profile exactly for a string name that is present; a list or dict name raises `TypeError` (unhashable) |
| Factory.TryCreate | tmuxbot/model/factory.py:77-92 | the `try` body: at most the successful import is logged, at debug level; an unknown name fails with `ModuleNotFoundError`; a result is always the unit's own `create_model` result for the profile |
| Factory.Classify | tmuxbot/model/factory.py:94-107 | the `except` clauses: the original is the cause; `ValueError` exactly for the `ImportError` family and `AttributeError`, otherwise `RuntimeError` "An unexpected error occurred while loading provider ..." |
| Factory.FromProfile | tmuxbot/model/factory.py:73-107 | a found profile never gives `None`; what escapes is a `ValueError` or `RuntimeError`, logged last at error level with its message |
| Factory.ModelFactory.CreateModel | tmuxbot/model/factory.py:31-107 | a missing role gives `None` and one "Agent configuration not found" error; `None` exactly when the role or its profile is missing; a `TypeError` only for an unhashable (list or dict) profile name, anything else raised is a `ValueError` or `RuntimeError` |
| Factory.MissingAgentIgnoresProviders | tmuxbot/model/factory.py:62-65 | for a missing role (`""` included) the result does not depend on the providers, and exactly one error is logged |
| Factory.MissingProfileIsSoft | tmuxbot/model/factory.py:67-71 | a missing profile returns `None` with no raise and no log for any registry |
| Factory.MissingUnitIsUnsupported | tmuxbot/model/factory.py:77-97 | an unimportable unit raises `ValueError` naming the provider and `tmuxbot.providers.<name>`, caused by the `ModuleNotFoundError` |
| Factory.MissingEntryIsRuntimeError | tmuxbot/model/factory.py:86-107 | a unit without `create_model` (or with `None`) raises `RuntimeError` "An unexpected error occurred while loading provider '<name>': Provider module '<name>' does not have a 'create_model' function" |
| Factory.ProviderErrorClassified | tmuxbot/model/factory.py:92-107 | a provider's own exception is classified by class: `ImportError` family gives the unsupported-provider `ValueError`, `AttributeError` the missing-function `ValueError`, anything else `RuntimeError` with the original message; the original is the cause |
| Factory.ImportFailureClassified | tmuxbot/model/factory.py:77-107 | a unit whose import raises goes through the same three `except` clauses, the import error as cause, logged after the profile record with no import reported |
| Factory.ImportFailureResolution | tmuxbot/model/factory.py:73-107 | for such a unit the resolution is the classified error with exactly two log records |
| Factory.ClassifyCases | tmuxbot/model/factory.py:94-107 | `ImportError` family gives the unsupported-provider `ValueError`, `AttributeError` the missing-function `ValueError`, anything else `RuntimeError` with the original message; the original is the cause |
| Factory.SuccessIsProviderResult | tmuxbot/model/factory.py:91-92 | on success the handle is exactly what the provider returns for the resolved profile |
| Factory.RaisedIsLogged | tmuxbot/model/factory.py:94-107 | every raised error except the unhashable-name `TypeError` is logged last, once, with its message |
| Factory.OneErrorLogged | tmuxbot/model/factory.py:73-107 | a raise from a found profile carries exactly one error record, the others being debug records |
| Factory.OpenAIScenario | tmuxbot/model/factory.py:62-92 | role "primary" bound to profile "p1" with provider "openai" resolves to the SDK chat model built from that profile |
| Factory.MockScenario | tmuxbot/model/factory.py:62-92 | with the test double registered, the handle carries the profile's fields |
| Factory.EmptyKeyScenario | tmuxbot/model/factory.py:92-107 | an OpenAI profile with an empty key surfaces as `RuntimeError` wrapping "API key is required" |
| Factory.AlwaysFailingScenario | tmuxbot/model/factory.py:92-107 | `create_model_with_error` registered as a provider always surfaces as `RuntimeError` |
| Context.SliceFrom | tmuxbot/core/context.py:33-37 | Python's `s[start:]`: a suffix of `s` whose length follows from clamping the start |
| Context.Recent | tmuxbot/core/context.py:58-62 | a suffix of the history: the last `count` when there are more than `count` (`count > 0`), all of it when there are at most `count` |
| Context.ConversationContext.constructor | tmuxbot/core/context.py:16-17 | the dataclass fields, empty history and capacity 50 by default |
| Context.ConversationContext.AddMessage | tmuxbot/core/context.py:19-37 | the new history is `AfterAdd` of the old; capacity unchanged; for capacity >= 2 the bound holds afterwards and the first message stays first; for capacity >= 0 the new message is last |
| Context.ConversationContext.GetHistory | tmuxbot/core/context.py:39-46 | element for element the history (a value, so a copy) |
| Context.ConversationContext.GetRecentMessages | tmuxbot/core/context.py:48-62 | a suffix of the history: the last `count` when there are more, everything otherwise |
| Context.ConversationContext.ClearContext | tmuxbot/core/context.py:64-66 | the history is empty, capacity unchanged, the count is 0 |
| Context.ConversationContext.GetMessageCount | tmuxbot/core/context.py:68-75 | the length of the history |
| Context.ConversationContext.GetContextSummary | tmuxbot/core/context.py:77-89 | `is_at_limit` iff count >= capacity, `has_messages` iff the history is non-empty |
| Context.NewestIsLast | tmuxbot/core/context.py:27-37 | with capacity >= 0 the message just added is the last one kept |
| Context.NegativeCapacityDropsNewest | tmuxbot/core/context.py:37 | at capacity -1 adding to an empty history leaves it empty |
| Context.UnderCapacityAppends | tmuxbot/core/context.py:27-30 | within capacity the new history is the old plus the new message |
| Context.TruncationShape | tmuxbot/core/context.py:30-35 | with capacity >= 2, on truncation exactly `max` messages remain: the original first, then the newest `max - 1` in order |
| Context.AddBounded | tmuxbot/core/context.py:30-35 | with capacity >= 2 the history is within capacity after every add, whatever its length before |
| Context.CapacityOneGrows | tmuxbot/core/context.py:32-35 | at capacity 1 the list grows by two per add: a copy of the first message, then all messages |
| Context.CapacityZeroKeepsAll | tmuxbot/core/context.py:30-37 | at capacity 0 nothing is dropped |
| Context.RecentZeroIsAll | tmuxbot/core/context.py:58-62 | `get_recent_messages(0)` is the whole history (`[-0:]`) |
| Context.RecentNegativeDropsFront | tmuxbot/core/context.py:58-62 | a negative count drops that many messages from the front |
| YamlUtils.EntryLines | tmuxbot/utils/yaml_utils.py:56-58 | one "`prefix`# key: value" line per entry of a dict comment, in order |
| YamlUtils.EmitComments | tmuxbot/utils/yaml_utils.py:53-60 | the dict's own comment lines are appended to the enclosing list: `OwnLines` of the comment |
| YamlUtils.AddComments | tmuxbot/utils/yaml_utils.py:50-70 | the recursive procedure returns `Clean(obj)` and appends exactly `CommentLines(obj, prefix)` to the enclosing list |
| YamlUtils.AddEntry | tmuxbot/utils/yaml_utils.py:62-68 | one pass of the loop extends the cleaned entries and the collected lines by exactly that entry's share |
| YamlUtils.ConvertJsonCommentsToYaml | tmuxbot/utils/yaml_utils.py:46-86 | the procedure returns `Converted(data, dump)` |
| YamlUtils.CleanCommentFree | tmuxbot/utils/yaml_utils.py:62-68 | no dict reachable through dict values in the cleaned data has a `_comment` or `_comments` key |
| YamlUtils.CleanKeepsOrder | tmuxbot/utils/yaml_utils.py:62-68 | on a dict, the cleaned entries are the non-comment entries in their original order, dict values cleaned and others unchanged |
| YamlUtils.CleanPrefixIsStrip | tmuxbot/utils/yaml_utils.py:62-68 | the same, for every prefix of the loop |
| YamlUtils.CleanCommentFreeIdentity | tmuxbot/utils/yaml_utils.py:62-68 | a dict without comment keys in any dict reachable through dict values is left as it is |
| YamlUtils.CleanIdempotent | tmuxbot/utils/yaml_utils.py:62-68 | cleaning twice is cleaning once |
| YamlUtils.CleanDeepDistinct | tmuxbot/utils/yaml_utils.py:62-68 | cleaning keeps every nested dict's keys distinct |
| YamlUtils.CommentFreeHasNoLines | tmuxbot/utils/yaml_utils.py:53-66 | such a dict yields no comment lines |
| YamlUtils.CommentPrecedence | tmuxbot/utils/yaml_utils.py:53 | `_comment` is used unless falsy, in which case `_comments` is |
| YamlUtils.OwnLinesShape | tmuxbot/utils/yaml_utils.py:55-60 | a dict comment gives one line per entry in order, a string one line, other types nothing |
| YamlUtils.OwnLinesFirst | tmuxbot/utils/yaml_utils.py:55-66 | a dict's own comment lines come before its children's |
| YamlUtils.LinesAreComments | tmuxbot/utils/yaml_utils.py:58-60 | every collected line starts with the prefix and "# " |
| YamlUtils.CombineIsDumpIff | tmuxbot/utils/yaml_utils.py:84-86 | the output is the dump alone exactly when there are no comment lines, otherwise the lines joined by newlines, a blank line, then the dump |
| YamlUtils.NonDictPassesThrough | tmuxbot/utils/yaml_utils.py:73-76 | non-dict top-level data is dumped uncleaned, with no comment lines |
| YamlUtils.CommentFreeDocument | tmuxbot/utils/yaml_utils.py:46-86 | a document without comments converts to its plain dump |
| YamlUtils.ListsAreNotVisited | tmuxbot/utils/yaml_utils.py:62-68 | a dict inside a list keeps its `_comment` and adds no line: `{"a": [{"_comment": "x", "b": 1}]}` converts to its plain dump |

## Left out

- Reading `config.yaml` and the YAML parser (tmuxbot/config/settings.py:54-65): the loaded document is a parameter. A top level that is not a dict (which would make the override assignments raise outside the `try`) is not modelled.
- Dict keys are strings. A YAML document can key a profile by an int or a boolean (`1:`, or `yes:` under PyYAML); `load_config` stores such a key and `profiles.get` then finds it for the matching agent name, which the model cannot express, so a non-string profile name finds nothing here.
- `save_config_template`, `safe_load_yaml` and `safe_dump_yaml`: file I/O.
- `yaml.safe_dump`'s output format: a foreign library, so it is a function parameter.
- Runtime.ParseInt: accepts an optional sign followed by decimal digits only. CPython's `int()` also accepts surrounding whitespace and `_` separators; those strings count as unparsable here. Non-ASCII Unicode digits, which `int()` accepts, are refused here too.
- `importlib` and `getattr`: a registry from names to units. What an import does for names outside the registry (empty or dotted names, say) is not distinguished beyond `ModuleNotFoundError`.
- Provider return values: a provider's `create_model` is modelled as returning a model or raising. The source returns whatever the unit's function returns (tmuxbot/model/factory.py:92), so a provider returning `None` or a non-model is not modelled; `Factory.FromProfile`'s "never `None`" and `Factory.ModelFactory.CreateModel`'s "`None` exactly when the role or its profile is missing" rest on that typed contract.
- The `OpenAIProvider`/`OpenAIChatModel` constructors: possibly-failing functions of their arguments. Connection behaviour and the contents of `ModelSettings` (floats such as temperature) are not modelled.
- Logging: only level and text are recorded. `exc_info` tracebacks, logger names and handlers are not.
- Runtime.Text: `repr` of strings inside containers uses single quotes without escaping. The exact text of CPython's `TypeError` messages is that of CPython 3.11.
- ConversationContext construction: in Python the `messages` list passed to the constructor is shared with the caller. Dafny sequences are values, so that aliasing is not modelled.
- Agent construction, the REPL, the CLI scripts and `TmuxBotDeps`: outside the modelled core (they build external agents, do I/O or import modules not part of this model).
- Asynchronous and concurrent use: the program is single-threaded here.
