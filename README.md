# A verified model of the research-paper summarizer's core

The repository is a multi-agent research-paper summarizer. A Python back end
runs a small sequential agent/task runner over a local language model. Three
tools process a PDF, summarize text and turn text into speech. A React front
end parses the search results and tidies the summary it gets back. This
project models that core in Dafny and proves what it promises:

- `crew.dfy` (module `Crew`) models `backend/custom_crew.py`:
  - `CustomAgent` builds a tool registry and a six-line prompt;
  - `CustomTask.execute` fills the description, runs the listed tools in
    order and asks the agent;
  - `CustomCrew.kickoff` runs the tasks in order and collects their outputs
    by description.

  The three classes are `class`es with constant fields. `Task.Execute` and
  `Crew.Kickoff` keep the source's loops and are proved equal to the
  functions `Task.Run` and `Crew.Run`. The language model and the tools are
  one oracle, `World`. It answers each call, given every call made before it,
  with a text or with an exception's message. Every operation takes the calls
  made so far and returns them extended, so order, "exactly once", fail-fast
  and "nothing was called" can all be stated.
- `template.dfy` (module `Template`) models the part of Python's
  `str.format(**inputs)` that task descriptions use: `{name}` fields, the
  `{{` and `}}` escapes, and the exceptions (KeyError, IndexError,
  ValueError).
- `app.dfy` (module `App`) models the front end, `frontend/src/App.jsx`:
  - the `handleResults` line parser: filter on `^\d+:\s+`, split on
    `/:\s+/` with limit 2, then `parseInt` and `trim`;
  - the split/filter/map/join cleanup in `handleSummarize`.
- `speech.dfy` (module `Speech`) holds what the two speech back ends share:
  - the host calls as `Effect`s and the exceptions they raise;
  - a runner that makes the calls in order and stops at the first exception;
  - the newline-to-space-and-strip flattening.
- `audio_generator.dfy` (module `AudioGenerator`) models
  `backend/audio_generator.py`: the espeak/espeak-ng probe, the per-platform
  hint, and `generate_audio_file`.
- `tools.dfy` (module `Tools`) models `backend/tools.py`: `process_pdf`,
  `summarize_text` and `generate_audio`.
- `text.dfy` (module `Text`) holds the string operations the core uses:
  - Python and JavaScript whitespace, which are different sets;
  - `strip`/`trim`, `split`/`join`, first-occurrence `replace`, one-character
    `replace` and ASCII `lower`;
  - decimal digits.
- `wrappers.dfy` holds `Option` and `Result`.

In the search results a line is kept when its trimmed form starts with
`^\d+:\s+`. Its title is the trimmed text from the first `:\s+` up to a second
one, or to the end of the line, so a trailing ` - link` without a colon stays in
the title. The summary cleanup only drops blank lines and removes the first
`[SUMMARY]` of each line.

## Model

| member | source | states |
|---|---|---|
| Crew.Registry | backend/custom_crew.py:13 | every tool is registered under its `__name__`, or `str(tool)` when it has none; every entry is one of the given tools, stored under its own key |
| Crew.RegistryLastWins | backend/custom_crew.py:13 | a tool that no later tool shares a key with is the one stored under that key, so a later tool with the same key replaces an earlier one |
| Crew.Agent.constructor | backend/custom_crew.py:7-15 | the agent keeps its persona and model, and its tools as the registry |
| Crew.Prompt | backend/custom_crew.py:17-26 | the six-part prompt template filled in with the persona, context and task; its lines are stated by `PromptLines` and `PromptHasSixLines` |
| Crew.PromptLines | backend/custom_crew.py:17-41 | with a one-line persona, the prompt's lines are `[ROLE] r`, `[GOAL] g`, `[BACKSTORY] b`, then the lines of `[CONTEXT] c`, the lines of `[TASK] t`, and `Response:` |
| Crew.PromptHasSixLines | backend/custom_crew.py:20-25 | with one-line arguments the prompt has exactly six lines |
| Crew.Agent.ExecuteTask | backend/custom_crew.py:35-41 | one model call with the agent's prompt, whose answer or exception comes back unchanged; `TaskSucceeded` states it for a task |
| Crew.ToolsRunInOrder | backend/custom_crew.py:53-60 | when no tool raises, the registered listed tools are called in list order, each with the whole inputs, and each answer appends one `\nTool <name> output: <answer>` to the context |
| Crew.ToolFailureStopsLoop | backend/custom_crew.py:57-60 | a tool that raises is the last call: the tools before it answered, and no later tool is called |
| Crew.UnregisteredNamesSkipped | backend/custom_crew.py:58 | names missing from the registry change nothing: the loop does what it does on the registered names alone |
| Crew.ToolLoopCallsNoModel | backend/custom_crew.py:57-60 | the tool loop only extends the calls made and never calls the model |
| Crew.ToolLoopIgnoresHistory | backend/custom_crew.py:57-60 | with a world that ignores earlier calls, the loop's context and outcome do not depend on the calls made before it |
| Crew.Task.constructor | backend/custom_crew.py:44-50 | a missing context list becomes the empty list (`context or []`) |
| Crew.Task.Run | backend/custom_crew.py:52-65 | what `execute` returns and calls: the format error, a tool's exception or the model's answer; its properties are the `Task` lemmas below |
| Crew.Task.Execute | backend/custom_crew.py:52-65 | the loop over the tool names computes exactly `Task.Run`: the result and the calls made |
| Crew.TaskSucceeded | backend/custom_crew.py:35-41 | a task that succeeds filled its description, called the registered tools in order, then asked its agent's model once with the prompt of its persona, its joined context plus the tool lines, and the filled description; the output is the model's answer unchanged |
| Crew.UnfillableDescriptionCallsNothing | backend/custom_crew.py:54 | a description the inputs cannot fill raises its format error before any tool or the model is called |
| Crew.MissingInputRaisesKeyError | backend/custom_crew.py:54 | a KeyError names a `{key}` field of the description that the inputs lack, and nothing was called |
| Crew.TaskAsksModelAtMostOnce | backend/custom_crew.py:52-65 | a task only adds calls, and asks the model at most once; exactly once when it succeeds |
| Crew.TaskReraises | backend/custom_crew.py:52-65 | an exception of a tool or the model that a task raises is the one the world gave on the last call the task made |
| Crew.TaskIgnoresHistory | backend/custom_crew.py:52-65 | with a world that ignores earlier calls, a task's result does not depend on the calls made before it |
| Crew.Crew.constructor | backend/custom_crew.py:68-73 | the crew keeps its tasks, agents and process |
| Crew.Crew.Run | backend/custom_crew.py:75-90 | what `kickoff` returns and calls: the results by description or the first exception; its properties are the `Kickoff` lemmas below |
| Crew.Crew.Kickoff | backend/custom_crew.py:75-90 | the loop over the tasks computes exactly `Crew.Run`: the results by description or the first exception, and the calls made |
| Crew.KickoffRanEveryTask | backend/custom_crew.py:79-85 | a kickoff that succeeds ran every task after the ones before it, and every task succeeded |
| Crew.KickoffResultKeys | backend/custom_crew.py:84 | the results of a successful kickoff are keyed by exactly the set of the tasks' unresolved descriptions |
| Crew.KickoffLastWins | backend/custom_crew.py:84 | the output stored under a description is that of the last task with that description |
| Crew.KickoffModelCalls | backend/custom_crew.py:79-85 | a kickoff only adds calls, and asks the model at most once per task; exactly once per task when it succeeds |
| Crew.KickoffFailsFast | backend/custom_crew.py:79-83 | a kickoff that raises stopped at some task `k`: the tasks before it succeeded, task `k` raised the kickoff's exception, and its calls are the last made |
| Crew.KickoffReraises | backend/custom_crew.py:79-83 | an exception of a tool or the model that a kickoff raises is the one the world gave on the last call made |
| Crew.KickoffWithoutInputs | backend/custom_crew.py:75-83 | with no inputs mapping the first task raises TypeError and nothing is called |
| Crew.KickoffIgnoresEarlierOutputs | backend/custom_crew.py:77-85 | the collected outputs never reach a task: with a world that ignores earlier calls, each task gives what it gives when run alone |
| Template.Format | backend/custom_crew.py:54 | `description.format(**inputs)`: a KeyError names a key the inputs lack, an IndexError a positional field; `FormatSucceedsIff`, `FormatFills` and `MissingKeyIsField` state the rest |
| Template.FormatSucceedsIff | backend/custom_crew.py:54 | formatting succeeds exactly when the template is well formed and every field it names is a keyword present in the inputs |
| Template.MissingKeyIsField | backend/custom_crew.py:54 | a KeyError names a non-positional field written `{key}` in the template and missing from the inputs |
| Template.FormatIgnoresExtraInputs | backend/custom_crew.py:54 | inputs the template does not name make no difference to a successful format |
| Template.FormatBraceFree | backend/custom_crew.py:54 | a template without braces formats to itself |
| Template.FormatWithBraceFreePrefix | backend/custom_crew.py:54 | brace-free text in front of a template is copied through, errors included |
| Template.FormatOneField | backend/custom_crew.py:54 | a single keyword field between brace-free text is replaced by its input, or raises KeyError naming it |
| Template.FormatField | backend/custom_crew.py:54 | a keyword field in front of any text is replaced by its input in front of the rest's result, or raises KeyError naming it |
| Template.FormatFills | backend/custom_crew.py:54 | a template of brace-free text and any number of keyword fields present in the inputs formats to the text with every field replaced by its input, in place |
| Template.FormatOfEscape | backend/custom_crew.py:54 | formatting a text with every brace doubled gives the text back, whatever the inputs |
| App.Filter | frontend/src/App.jsx:75-78 | `filter` keeps only elements that pass, and keeps every element that passes |
| App.FilterAppend | frontend/src/App.jsx:75-78 | `filter` keeps order and multiplicity: the filter of a concatenation is the concatenation of the filters |
| App.FindSep | frontend/src/App.jsx:81 | the separator `:\s` found is the first one at or after the start |
| App.SpaceRun | frontend/src/App.jsx:81 | `\s+` runs to the first non-whitespace character or the end |
| App.ParseLine | frontend/src/App.jsx:80-85 | the map step: `parseInt` of the text before the first separator and the trimmed text up to the next; `ParseIndexedLine`, `KeptLineId` and the title lemmas below state it |
| App.HandleResults | frontend/src/App.jsx:70-91 | `handleResults`: split, filter, map; `HandleLines`, `HandleMixedLines` and `ResultsRoundTrip` state it |
| App.NonStringGivesNothing | frontend/src/App.jsx:88-91 | a response that is not a string gives no results |
| App.BlankLinesDropped | frontend/src/App.jsx:75-78 | a line of whitespace only, the empty line included, is never kept |
| App.KeptLineShape | frontend/src/App.jsx:75-78 | every kept line is whitespace, digits, a colon, whitespace, a title that starts and ends with a non-space, and whitespace |
| App.ParseIndexedLine | frontend/src/App.jsx:75-86 | conversely every line of that shape is kept, its id is the digits' value and its title is the trimmed text before the next separator |
| App.ParseIntOfIndex | frontend/src/App.jsx:83 | `parseInt` of leading whitespace and digits is the digits' decimal value |
| App.KeptLineId | frontend/src/App.jsx:83 | the id of any kept line is the value of the digit run its trimmed form starts with |
| App.TitleWithoutSecondSeparator | frontend/src/App.jsx:81-84 | without a second separator the title is the whole text after the first, trimmed |
| App.TitleBeforeSecondSeparator | frontend/src/App.jsx:81-84 | text after a second separator is dropped: the title is what lies between the two, for every title without a separator of its own, one ending in `:` included |
| App.HandleKeptLines | frontend/src/App.jsx:73-87 | lines that all pass the filter, joined by line breaks, are each parsed, in order, one result per line |
| App.HandleLines | frontend/src/App.jsx:73-87 | any lines joined by line breaks give one result per kept line, in the order of the lines |
| App.HandleMixedLines | frontend/src/App.jsx:73-87 | a kept line gives its result between those of the lines before and after it; a dropped line leaves no trace |
| App.HandleEmptyText | frontend/src/App.jsx:73-87 | the empty text holds no results |
| App.ResultsRoundTrip | frontend/src/App.jsx:70-91 | results written one per line as `id: title` are read back exactly and in order when no title holds a separator |
| App.SecondSeparatorTruncates | frontend/src/App.jsx:80-81 | the split as written cuts `0: BERT: Pre-training` to the title `BERT`, unlike the split-once the comment describes |
| App.IntendedTitle | frontend/src/App.jsx:80-84 | the corrected map step reads any kept line's id, and its title as all the text after the first separator, trimmed |
| App.IntendedResultsRoundTrip | frontend/src/App.jsx:70-91 | with the corrected map step every one-line trimmed title is read back exactly, separators included |
| App.CleanSummary | frontend/src/App.jsx:103-107 | the cleanup of `handleSummarize`; `CleanSummaryLines` and `CleanTextUnchanged` state it |
| App.SummaryFilterKeepsNonBlank | frontend/src/App.jsx:105 | the cleanup's filter keeps exactly the lines that are not all whitespace |
| App.RemoveMarkerAfterSpace | frontend/src/App.jsx:106 | the marker after leading whitespace is the first occurrence, and removing it leaves the text around it |
| App.MarkerOnlyLineBecomesEmpty | frontend/src/App.jsx:105-106 | a line holding only `[SUMMARY]` is kept and becomes an empty line |
| App.CleanSummaryLines | frontend/src/App.jsx:103-107 | the cleaned summary's lines are the cleaned non-blank lines of the text, in order, each trimmed; with no such line the result is empty |
| App.CleanTextUnchanged | frontend/src/App.jsx:103-107 | a text whose lines are non-empty, trimmed and marker-free comes back unchanged |
| Text.Trim | frontend/src/App.jsx:77 | the trimmed text has no whitespace at either end |
| Text.TrimDecompose | frontend/src/App.jsx:77 | a text is whitespace, its trimmed form, then whitespace |
| Text.TrimEmptyIff | frontend/src/App.jsx:105 | trimming gives the empty text exactly when the text is all whitespace |
| Text.SplitJoin | frontend/src/App.jsx:104-107 | splitting pieces joined by a separator that none contains gives the pieces back |
| Text.JoinSplit | frontend/src/App.jsx:104-107 | joining the pieces of a split gives the text back |
| AudioGenerator.CheckEspeak | backend/audio_generator.py:8-30 | espeak is found when launching it does not raise FileNotFoundError; only after that error is espeak-ng tried; both missing gives false; other exceptions propagate; the launches made are stated |
| AudioGenerator.CheckEspeakReraises | backend/audio_generator.py:8-30 | an exception from the probe is the one the last launch raised |
| AudioGenerator.InstallInstructions | backend/audio_generator.py:32-42 | the lower-cased platform `linux`, `darwin` or `windows` gives its fixed hint; every other platform the default hint |
| AudioGenerator.InstructionsIgnoreCase | backend/audio_generator.py:34 | the platform name's letter case makes no difference |
| AudioGenerator.SpeechText | backend/audio_generator.py:66-68 | the cleaned text has no line break, no whitespace at either end, and at most 2003 characters |
| AudioGenerator.SpeechTextCut | backend/audio_generator.py:66-68 | a flattened text over 2000 characters becomes its first 2000 followed by `...`; a shorter one is kept whole |
| AudioGenerator.GenerateAudioFile | backend/audio_generator.py:44-83 | `generate_audio_file`: the result and the host calls; `MissingEspeakRaisesFirst`, `GeneratedInOrder` and `FailuresReraised` state it |
| AudioGenerator.MissingEspeakRaisesFirst | backend/audio_generator.py:46-50 | without espeak the call raises the RuntimeError naming the dependency and the platform's hint, having only launched the two probes |
| AudioGenerator.GeneratedInOrder | backend/audio_generator.py:52-76 | a successful call returns true after the probes, the parent directory, the speech model on the CPU and the synthesis of the cleaned text, in that order |
| AudioGenerator.FailuresReraised | backend/audio_generator.py:52-83 | every other exception is the one the host raised on the last call made |
| Speech.Flatten | backend/audio_generator.py:66 | the flattened text has no whitespace at either end |
| Speech.FlattenOneLine | backend/audio_generator.py:66 | the flattened text has no line break |
| Speech.RunStepsSucceeded | backend/audio_generator.py:52-76 | when no call raises, every call was made, in order, and nothing else |
| Speech.RunStepsFailed | backend/audio_generator.py:77-83 | on an exception the calls made are the ones up to the raising one, each earlier one returned, and what is raised is what that call raised |
| Speech.RunStepsReraises | backend/audio_generator.py:77-83 | an exception is the one the last call made raised |
| Tools.ProcessPdf | backend/tools.py:33-50 | a usable existing path gives `Processed PDF: `; otherwise an arXiv id gives `Processed arXiv paper: `; neither gives the fixed error; an exception from the existence check becomes `Error processing PDF: `, each exactly when its condition holds |
| Tools.ProcessPdfReportsSource | backend/tools.py:40-50 | the path or id a successful call reports is the one given, and the failure text is `Error processing PDF: ` followed by the exception's message |
| Tools.SummarizeText | backend/tools.py:53-56 | the model's answer to `SummarizePrompt(text)`, or its exception, unchanged |
| Tools.SummarizePrompt | backend/tools.py:55 | the prompt is the header followed by at most the first 3000 characters of the text |
| Tools.ShortTextSentWhole | backend/tools.py:55 | a text of at most 3000 characters is sent whole after the header |
| Tools.SummaryOnlySeesPrefix | backend/tools.py:55 | texts that share their first 3000 characters send the model the same prompt |
| Tools.ToolSpeechText | backend/tools.py:70 | the prepared text has at most 2000 characters, is a prefix of the flattened text, has no line break and does not start with whitespace |
| Tools.CutOfFlatText | backend/tools.py:70 | a one-line stripped text over 2000 characters is cut to its first 2000, with no ellipsis |
| Tools.CutCanEndInSpace | backend/tools.py:70 | the cut can leave trailing whitespace, when the 2000th character is a space |
| Tools.SpeechTextsAgree | backend/tools.py:70 | this tool's text and the audio module's agree up to the cut; where the audio module appends `...`, this tool does not |
| Tools.GenerateAudio | backend/tools.py:59-76 | `generate_audio`: the result and the host calls; `GenerateAudioReturnsPath` and `GenerateAudioReraises` state it |
| Tools.GenerateAudioReturnsPath | backend/tools.py:59-73 | on success the tool returns the path given, or `output.mp3`, after making the directory, loading the model and synthesizing the prepared text there |
| Tools.GenerateAudioReraises | backend/tools.py:74-76 | an exception is the one the host raised on the last call made |

## Left out

- The language model, the tools, `subprocess.run`, `Path.mkdir`, the TTS
  package, `os.path.exists` and `platform.system()` are outside the model. They
  become the oracles `World` and `Host`, the function `pathExists` and the
  string `system`. Their effects are the calls recorded, not what they do.
- `print`, `verbose` and all logging are not modelled, including the
  `result[:200]` log slice in `kickoff`.
- `Crew.Agent.ExecuteTask`: `LLMChain.run` is taken as one model call with the
  rendered prompt whose answer is returned unchanged. LangChain's own
  templating and retries are not modelled.
- `Template.Format`: only names, `{{` and `}}` are modelled. A field's name is
  its text up to the first `}`. Attribute and index access (`{a.b}`,
  `{a[0]}`), conversions (`!r`), format specs (`:>5`) and nested fields are
  read as plain names. Python raises ValueError for a `{` inside a field name,
  where the model reports a missing key. A field is taken as positional only
  when its name is empty or a run of ASCII digits. Python also reads other
  Unicode decimal digits (`{٣}`) as a positional index, where the model looks
  up a key. It raises ValueError for a digit run too long for `Py_ssize_t`,
  where the model reports a positional field.
- `Tools.SummarizeText`: the model is a function of the prompt alone. The
  source samples at temperature 0.7, so two calls with the same prompt can
  answer differently; `SummaryOnlySeesPrefix` is therefore stated about the
  prompt, not the answer.
- Tools are taken not to change the `inputs` mapping they are given. In the
  source every tool receives the very dictionary that the task then formats
  and the later tasks reuse, so a tool that changed it would change them.
  `TaskIgnoresHistory` and `KickoffIgnoresEarlierOutputs` rely on this.
- Tool results are modelled as strings. Python's `str()` of a non-string
  result is not modelled.
- `expected_output` and the crew's `agents` and `process` are stored but not
  used by the code. The model stores them too.
- `App.JsParseInt`: values are unbounded integers. JavaScript numbers lose
  precision above 2^53, which is not modelled.
- `AudioGenerator.InstallInstructions`: `lower()` is modelled on ASCII.
  Python lowers all of Unicode, but no non-ASCII character lowers to exactly
  one of the letters compared, so the outcome is the same.
- `Speech.Effect`: `MakeParents` records the output path, not its computed
  parent directory.
- `Tools.GenerateAudio`: an omitted `output_path` is `None` in the model. An
  explicit Python `None` passed by a caller is not modelled.
- The React state setters, `fetch`, the `results[selectedIndex]` guard and the
  `Failed to fetch summary.` error path of `handleSummarize` are user-interface
  and network code.
- The HTTP routes, the agent and task configuration files, the `tool`
  decorator fallback and the model download script are outside the core.

## Findings

| source | as written | input that shows it | evidently intended | confidence | as-written member | corrected member |
|---|---|---|---|---|---|---|
| frontend/src/App.jsx:80-81 | `line.split(/:\s+/, 2)` under the comment "Split once": JavaScript's limit drops every piece after the second, so a title's own `: ` and everything after it are lost | the line `0: BERT: Pre-training` gives the title `BERT` | split at the first separator only, so the title is `BERT: Pre-training` | high, not executed | App.SecondSeparatorTruncates | App.IntendedTitle |

`App.HandleResults` models the code as written. `App.HandleResultsIntended` is
the same pipeline with the corrected map step `App.ParseLineIntended`.
`App.IntendedResultsRoundTrip` proves that it reads back every non-empty,
trimmed one-line title, separators included.
