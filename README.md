# the_bot agent core, modelled in Dafny

`the_bot` is a question-answering agent built for a benchmark of
questions: a language-model assistant runs in a small graph with a
retriever and a tool executor. It uses arithmetic and search tools, and
it normalises its answers before submitting them to a scoring server.
This project models the deterministic core of that program and proves
properties of it:

- **Answer normalisation** (`clean_answer.dfy`, with `text.dfy` for Python's
  `str.strip`, `str.startswith`, `str(int)` and `str.join`):
  `Agent._clean_answer` strips the answer, removes a fixed list of seven
  prefixes in list order, and then removes one layer of matching quotes.
  Integers, booleans and `None` become their Python `str()` text.
- **Retriever node** (`retriever.dfy`): the message list it returns. That
  is the system prompt, the conversation, and the first similar question
  when one is found.
- **Agent graph** (`agent_graph.dfy`): the edges START → retriever →
  assistant, assistant → tools or END, tools → assistant; the shape of
  every run.
- **Provider check** (`provider.dfy`): which model class each `model_type`
  selects, and the `ValueError` for any other.
- **Tool discovery** (`tool_discovery.dfy`): `_discover_tools` collects every
  callable attribute with an `as_tool` attribute, module by module. A module
  that raises `ImportError` on import is skipped, and one that raises it
  partway through its attributes keeps the tools it already gave.
- **Math tools** (`math_tools.dfy`): `add`, `substract`, `multiply`, `divide`
  (with its zero guard) and `modulus` (Python's floored `%`).
- **Search serialisers** (`search_tools.dfy`): the `<Document .../>` blocks of
  `wiki_search`, `web_search` and `arxiv_search`, joined with
  `"\n\n---\n\n"`.
- **Configuration** (`config.dfy`): `AgentWrapper.__init__` reads the
  environment (a map from name to value, where an unset name is absent)
  and picks the credentials for the model type. It builds the agent's
  keyword arguments in place or raises `RuntimeError`.
- **Evaluation loop** (`evaluation.dfy`): the blank-question guard of
  `AgentWrapper.__call__`, and the loop of `run_and_submit_all` that turns
  tasks into the submission payload and result rows.

The language model, vector store, web services and scoring server are
parameters of the model: a function from query to matches, from question
to answer or exception, or a list of loader results.

Where the code and its tests disagree, the model follows the code:

- `test_core.py:61` expects `'" Answer: Quoted with prefix"'` to clean to
  `Quoted with prefix`. The prefixes are removed before the quotes, so the
  code returns `Answer: Quoted with prefix` (`PrefixInsideQuotesKept`).
- `test_core.py:85` expects `"Answer: "` to clean to `""`. Stripping first
  leaves `Answer:`, which no longer carries the prefix
  (`BarePrefixKeepsColon`).
- `test_search.py:67` expects `title=Result 1`. `web_search` reads the key
  `" title"` with a leading space, so a Tavily result shows an empty title
  (`WebTitleKey`).
- Cleaning an answer is not idempotent. `_clean_answer` is documented
  (`core.py:363-365`) as cleaning up prefixes and formatting that break
  exact matching, but only one layer of quotes is removed per call, so
  `""x""` needs two calls (`OneQuoteLayerOnly`).

Integers are unbounded, as in Python. `divide` returns an exact `real`
where Python returns a rounded float.

## Model

| member | source | states |
|---|---|---|
| CleanAnswer.CleanAnswer | src/the_bot/agents/core.py:362-417 | the loop over the prefixes computes the specified cleaning; a cleaned string has no surrounding whitespace and is a substring of the input; an integer answer parses back to the integer |
| CleanAnswer.DropFromShape | src/the_bot/agents/core.py:409-411 | applied to stripped text, prefix removal gives a substring of it that again has no surrounding whitespace |
| CleanAnswer.UnquoteShape | src/the_bot/agents/core.py:414-415 | applied to stripped text, quote removal gives a substring of it that again has no surrounding whitespace |
| CleanAnswer.CleanTextShape | src/the_bot/agents/core.py:394-417 | a cleaned string is a substring of the raw answer with no surrounding whitespace |
| CleanAnswer.PrefixWithoutSpaceKept | src/the_bot/agents/core.py:399-411 | `The answer is` without its trailing space is not a prefix match and is returned unchanged |
| CleanAnswer.LaterPrefixExposedRemoved | src/the_bot/agents/core.py:409-411 | a prefix exposed by removing an earlier one in the list is removed too |
| CleanAnswer.EarlierPrefixExposedKept | src/the_bot/agents/core.py:409-411 | a prefix exposed by removing a later one in the list stays, since the list is walked once |
| CleanAnswer.MatchingQuotesRemoved | src/the_bot/agents/core.py:414-415 | one pair of matching double or single quotes around a stripped answer is removed and the answer comes back unchanged |
| CleanAnswer.CleanWrapped | src/the_bot/agents/core.py:396-415 | a string wrapped in matching quotes skips the prefix loop, because no prefix starts with a quote, and cleans to its stripped inside |
| CleanAnswer.MixedQuotesKept | src/the_bot/agents/core.py:414 | quotes of different kinds at the two ends, in either order, are kept, whatever lies between them |
| CleanAnswer.OneQuoteLayerOnly | src/the_bot/agents/core.py:414-415 | only one layer of quotes is removed per call: a doubly quoted answer keeps one layer, and cleaning it again gives a different result |
| CleanAnswer.PrefixInsideQuotesKept | src/the_bot/agents/core.py:409-415 | a prefix inside quotes survives, because prefixes are removed before quotes |
| CleanAnswer.BarePrefixKeepsColon | src/the_bot/agents/core.py:396-411 | `Answer:` followed only by whitespace becomes `Answer:`, because stripping removes the space the prefix needs |
| CleanAnswer.IntAnswerRoundTrip | src/the_bot/agents/core.py:388-389 | the text of an integer answer parses back to that integer, with a minus sign exactly for negatives |
| Text.TrimStartSpec | src/the_bot/agents/core.py:396 | leading trimming removes exactly the maximal run of Python whitespace at the front |
| Text.TrimEndSpec | src/the_bot/agents/core.py:396 | trailing trimming removes exactly the maximal run of Python whitespace at the end |
| Text.StripSpec | src/the_bot/agents/core.py:396 | `strip` returns the middle slice between the leading and trailing whitespace runs |
| Text.StripIsInfix | src/the_bot/agents/core.py:396 | the stripped text is a substring of the input, and it is empty exactly when the input is all whitespace |
| Text.StripUnique | src/the_bot/agents/core.py:396 | any slice with only whitespace around it and none at its ends is the stripped text |
| Text.StripKeeps | src/the_bot/agents/core.py:411 | stripping text with no surrounding whitespace changes nothing |
| Text.IntToString | src/the_bot/agents/core.py:389 | `str(int)` has a minus sign exactly for negatives, then digits without a leading zero |
| Text.IntRoundTrip | src/the_bot/agents/core.py:389 | parsing `str(n)` gives back `n` |
| Text.JoinLength | src/the_bot/agents/tools/search.py:15 | the joined text is as long as the pieces plus one separator between each pair |
| Text.JoinPieces | src/the_bot/agents/tools/search.py:15-20 | each piece sits at its offset in the joined text, in list order |
| Text.JoinSeparators | src/the_bot/agents/tools/search.py:15-20 | one separator sits just before every piece but the first |
| Text.JoinEnds | src/the_bot/agents/tools/search.py:15-20 | the joined text starts with the first piece and ends with the last |
| AgentGraph.Next | src/the_bot/agents/core.py:170-173 | START leads only to the retriever, the assistant leads to the tools exactly when it asks for one and to END otherwise, nothing leads back to START, and END has no successor |
| Retriever.Query | src/the_bot/agents/core.py:132-135 | the search query is the first message's content; an empty message list raises `IndexError` |
| Retriever.Assemble | src/the_bot/agents/core.py:156-163 | the result is the system message, then the conversation unchanged, then the reference message built from the first match when there is one |
| Retriever.RetrieverNode | src/the_bot/agents/core.py:127-163 | the node fails exactly on an empty conversation, and otherwise searches with the first message and assembles the result |
| Retriever.OnlyFirstMatchUsed | src/the_bot/agents/core.py:156-160 | matches after the first do not change the result |
| Retriever.ExampleOnlyAddition | src/the_bot/agents/core.py:156-163 | with or without a match, the result starts with the system message and the conversation |
| AgentGraph.RunIsRun | src/the_bot/agents/core.py:165-175 | every sequence of tool decisions gives a run that follows the edges from START to END |
| AgentGraph.RunShape | src/the_bot/agents/core.py:170-173 | in any run the retriever runs once, second; the retriever and tools are followed by the assistant; END comes only after the assistant, and last |
| AgentGraph.RunsAreDecided | src/the_bot/agents/core.py:170-173 | every run, and every prefix of a run, is fixed by the assistant's tool decisions |
| AgentGraph.LoopEnds | src/the_bot/agents/core.py:172-173 | `n` tool calls give `n` tools-assistant rounds, and the first decision against a tool ends the run |
| Provider.SelectProvider | src/the_bot/agents/core.py:41-63 | `google`, `groq` and `HfApiModel` select their model class, and any other type raises the invalid-provider `ValueError` |
| Provider.SelectProviderRoundTrip | src/the_bot/agents/core.py:41-63 | each provider is selected by its own name |
| ToolDiscovery.DiscoverTools | src/the_bot/agents/core.py:205-227 | the nested loops collect the specified tools, and every collected attribute is callable and has `as_tool` |
| ToolDiscovery.DiscoveredMembers | src/the_bot/agents/core.py:211-223 | an attribute is collected exactly when the loop reaches it in some module and it passes the tool test |
| ToolDiscovery.DiscoveredAppend | src/the_bot/agents/core.py:211-223 | tools come out in module order: the tools of concatenated module lists are concatenated |
| ToolDiscovery.FailedImportIgnored | src/the_bot/agents/core.py:213-225 | a module whose import raises `ImportError` contributes nothing and does not stop the modules after it |
| ToolDiscovery.PartialImportKeepsTools | src/the_bot/agents/core.py:213-225 | an `ImportError` raised inside the attribute loop ends that module only; the tools it appended before stay, and later modules are still processed |
| ToolDiscovery.InitialTools | src/the_bot/agents/core.py:66-69 | the agent's tools are the default tools, an empty list, followed by the discovered tools |
| MathTools.Add | src/the_bot/agents/tools/math.py:13-21 | subtracting `b` from the sum gives back `a` |
| MathTools.Substract | src/the_bot/agents/tools/math.py:23-31 | adding `b` to the difference gives back `a` |
| MathTools.Multiply | src/the_bot/agents/tools/math.py:4-11 | the product is zero exactly when a factor is, positive exactly when the factors have the same sign, and `a` when `b` is 1 |
| MathTools.MultiplyUndone | src/the_bot/agents/tools/math.py:4-11 | a product is divisible by each non-zero factor, with the other factor as quotient |
| MathTools.Divide | src/the_bot/agents/tools/math.py:33-43 | a zero divisor raises `ValueError("Cannot divide by zero.")`; otherwise the quotient times `b` is `a` |
| MathTools.FloorMod | src/the_bot/agents/tools/math.py:53 | the remainder takes the divisor's sign, is smaller than it in magnitude, and satisfies `a == b * (a // b) + r` |
| MathTools.Modulus | src/the_bot/agents/tools/math.py:45-53 | a zero divisor raises `ZeroDivisionError`; otherwise the result is Python's floored remainder |
| MathTools.FloorUnique | src/the_bot/agents/tools/math.py:53 | the floored quotient and remainder are the only pair with those properties |
| MathTools.Examples | src/the_bot/agents/tools/math.py:33-53 | `5 % -4 == -3` and `-5 % 4 == 3` as in Python, unlike Dafny's Euclidean `%`; `divide(7, 2) == 3.5` |
| SearchTools.PageBlock | src/the_bot/agents/tools/search.py:17 | a page without a `source` raises `KeyError('source')`, and every other page gives a block |
| SearchTools.PageBlocks | src/the_bot/agents/tools/search.py:16-19 | the comprehension fails exactly when some page lacks a source; otherwise it gives one block per page, in order |
| SearchTools.WikiSearch | src/the_bot/agents/tools/search.py:6-21 | the only key is `wiki_results`, holding the blocks joined by the separator; no pages give the empty string; a page without a source raises |
| SearchTools.ArxivSearch | src/the_bot/agents/tools/search.py:43-58 | the same as for Wikipedia, with the key `arxiv_results` and truncated contents |
| SearchTools.WebBlock | src/the_bot/agents/tools/search.py:36 | a web block is the f-string of the source, filled from `url`, `" title"`, `score` and `content` with their defaults |
| SearchTools.WebBlocks | src/the_bot/agents/tools/search.py:34-39 | one block per Tavily result, in result order |
| SearchTools.WebSearch | src/the_bot/agents/tools/search.py:24-40 | the only key is `web_results`, holding the results' blocks joined by the separator; no results give the empty string |
| SearchTools.BlockParts | src/the_bot/agents/tools/search.py:17 | a block starts with its tag, ends with the closing tag, and holds the content in between |
| SearchTools.WikiBlockLayout | src/the_bot/agents/tools/search.py:17 | a Wikipedia block is the f-string of the source, with the page or an empty page and the whole content |
| SearchTools.ArxivTruncation | src/the_bot/agents/tools/search.py:54 | an arXiv block holds the first 1000 characters, which is the whole content up to that length |
| SearchTools.JoinedLayout | src/the_bot/agents/tools/search.py:15-20 | in the joined text block `i` starts at its offset, every block but the first has the `---` separator just before it, and the text starts with the first block and ends with the last |
| SearchTools.WikiLayout | src/the_bot/agents/tools/search.py:14-21 | the Wikipedia text holds the pages' blocks at their offsets, in loader order, separated by `---` lines |
| SearchTools.ArxivLayout | src/the_bot/agents/tools/search.py:51-58 | the arXiv text holds the pages' truncated blocks at their offsets, in loader order, separated by `---` lines |
| SearchTools.WebLayout | src/the_bot/agents/tools/search.py:32-40 | the web text holds each result's block at its offset, in result order, separated by `---` lines |
| SearchTools.WebTitleKey | src/the_bot/agents/tools/search.py:36 | the title is read from the key `" title"`, so a result keyed `title` shows an empty, unquoted title |
| SearchTools.WebDefaults | src/the_bot/agents/tools/search.py:36 | a web result without any of the fields shows empty source, title and content and a `0.0` score |
| Config.Or | src/the_bot/main.py:54 | `a or b` is `a` when `a` is truthy and `b` otherwise, so it is truthy exactly when one of them is |
| Config.ChooseCredentials | src/the_bot/main.py:78-99 | every failure carries one of the two `RuntimeError` messages |
| Config.BuildAgentKwargs | src/the_bot/main.py:53-99 | the dictionary filled in place is the specified one: the base entries plus a non-empty `api_key` |
| Config.GroqPriority | src/the_bot/main.py:78-91 | for `groq` the key comes from DashScope, then xAI, then OpenAI, and with none of them set the call raises |
| Config.DirectProviders | src/the_bot/main.py:92-99 | for other types `google` needs a Gemini key and `HfApiModel` a Hugging Face token; anything else raises |
| Config.ChosenKeyTruthy | src/the_bot/main.py:78-99 | the key of the chosen credentials is never empty |
| Config.ProviderAgrees | src/the_bot/main.py:78-99 | the agent's provider check accepts every chosen configuration's model type, with the matching provider |
| Config.HfTokenPreference | src/the_bot/main.py:54 | `HF_TOKEN` is preferred over `HUGGINGFACEHUB_API_TOKEN` unless it is unset or empty |
| Config.EmptyCountsAsAbsent | src/the_bot/main.py:54-99 | a credential variable set to the empty string has the same effect as an unset one |
| Config.DefaultConfiguration | src/the_bot/main.py:59-97 | with no model type set, the Hugging Face model is used with its default model id and the token as key |
| Config.EmptyModelTypeRejected | src/the_bot/main.py:59-99 | an empty `AGENT_MODEL_TYPE` is not replaced by the default and matches no provider |
| Config.DashScopeDefaults | src/the_bot/main.py:80-83 | the DashScope branch defaults to the international endpoint, and its model id is `None` unless set |
| Config.VerboseFlag | src/the_bot/main.py:62 | `AGENT_VERBOSE` is compared case-insensitively with `true` and is off when unset |
| Evaluation.AskAgent | src/the_bot/main.py:107-114 | the reply is `Please provide a question.`, the agent error text, or the agent's own answer; a blank question always gets the first |
| Evaluation.BlankQuestionNotAsked | src/the_bot/main.py:108-109 | an empty or all-whitespace question gets `Please provide a question.` whatever the agent would say |
| Evaluation.QuestionForwarded | src/the_bot/main.py:110-114 | any other question gets the agent's answer, or the fixed error text when the agent raises |
| Evaluation.CollectAnswers | src/the_bot/main.py:149-162 | one payload entry and one result row per task with an id and a question, in task order, with matching ids and answers |
| Evaluation.CollectForSubmission | src/the_bot/main.py:149-165 | nothing is submitted, with `No answers generated.`, exactly when every task is skipped |
| Evaluation.EligibleMembers | src/the_bot/main.py:157-158 | a task is collected exactly when it has a non-empty id and question |
| Evaluation.EligibleAppend | src/the_bot/main.py:151-162 | skipping keeps the order of the tasks |
| Evaluation.NoneEligible | src/the_bot/main.py:157-165 | nothing is collected exactly when every task is skipped |
| Evaluation.CollectedAreEligible | src/the_bot/main.py:157-158 | every collected task has an id and a question |
| Evaluation.WhitespaceQuestionSubmitted | src/the_bot/main.py:151-161 | a whitespace-only question passes the loop's check and is submitted with the fixed reply |

## Left out

- The float branch of `_clean_answer` (`core.py:376-387`) is not modelled: `str(float)` and the `$1,234.56` currency format need a model of floating-point printing. Lists and other values are only their `repr` text (`RawAnswer.OtherValue`).
- `Agent.answer_question`, the language models, the Supabase vector store, the message reducer and the tool-calling loop of the assistant node are not modelled. The assistant's decision is an input of the graph model, and the similarity search is a function parameter of the retriever.
- `MathTools.Divide`: the quotient is an exact `real`; Python's float rounding and overflow are not modelled.
- The loaders and Tavily client behind the search tools are not modelled. Metadata and result values are given as the text `str()` makes of them, so a numeric score is its `str()` text.
- Tools other than math and search (files, images, spreadsheets, summarising) are not part of this model.
- Config: `float(AGENT_TEMPERATURE)` is kept as its text (`Value.FloatText`); the `ValueError` on a malformed value is not modelled.
- `Config.AsciiLower` lowers only ASCII letters. Python's `str.lower` also lowers other letters, but none of them lowers to a letter of `true`, so the verbose flag is the same.
- Evaluation: a `task_id` that is not a string, or a `file_name` present with a null value (passed on as `None`), is not modelled; tasks carry optional strings.
- The HTTP requests, file downloads, the Gradio interface, logging and the submission after a non-empty payload (`main.py:116-146,166-207`) are not modelled. The `get_score` that `main.py:10` imports is not defined in `utils.py`, so local scoring is not part of this model.
- `_discover_tools` catches only `ImportError` (`core.py:224`). Any other exception from `__import__`, `dir` or `getattr` (`core.py:214-218`) leaves `_discover_tools` and aborts `Agent.__init__`; the model has no outcome for such a module.
- `Evaluation.AskAgent`: the agent is a function of the question and file name, so two identical tasks get identical answers; a language model may answer them differently.
- `.env` loading and the debug print of set variables (`main.py:28-51`) are not modelled.
