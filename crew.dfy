/** The sequential agent/task runner: an agent renders a fixed six-line prompt
    and asks its language model; a task fills its description template, runs the
    tools it lists and hands the collected context to its agent; a crew runs its
    tasks one after another and collects their outputs by description.

    The language model and the tools are outside the model. Every call into them
    is an `Event`; a `World` answers an event given all events before it (so it
    may be stateful and nondeterministic), either with a text or by raising.
    Operations take the history of events so far and return it extended. */
module Crew {
  import opened Wrappers
  import opened Text
  import Template

  type Inputs = Template.Inputs

  /** The identity of an opaque callable: a tool function or a model handle. */
  type Handle = nat

  /** A callable handed to an agent: its `__name__` when it has one, and what `str()` shows. */
  datatype Tool = Tool(handle: Handle, dunderName: Option<string>, display: string)

  /** A call out of the runner: a tool given the task inputs, or a model given a prompt. */
  datatype Event =
    | ToolCall(name: string, tool: Tool, inputs: Inputs)
    | ModelCall(model: Handle, prompt: string)

  /** The answers of the outside world: a text, or the message of an exception. */
  type World = (seq<Event>, Event) -> Result<string, string>

  /** Why executing a task or a crew raised. */
  datatype Error =
    | NotAMapping                            // TypeError: `format(**None)` when kickoff gets no inputs
    | TemplateError(cause: Template.FormatError)
    | Raised(message: string)                // an exception of a tool or the model, propagated unchanged

  // ---------------------------------------------------------------------
  // Tool registry
  // ---------------------------------------------------------------------

  /** `getattr(tool, "__name__", str(tool))`. */
  function ToolKey(tool: Tool): string {
    tool.dunderName.GetOr(tool.display)
  }

  /** No tool after position `i` has the key of the tool at `i`. */
  predicate LastWithKey(tools: seq<Tool>, i: nat)
    requires i < |tools|
  {
    forall j :: i < j < |tools| ==> ToolKey(tools[j]) != ToolKey(tools[i])
  }

  /** The dictionary comprehension of `CustomAgent.__init__`: every tool under its
      key, and nothing else. */
  function Registry(tools: seq<Tool>): (registry: map<string, Tool>)
    ensures forall i :: 0 <= i < |tools| ==> ToolKey(tools[i]) in registry
    ensures forall k :: k in registry ==> registry[k] in tools && ToolKey(registry[k]) == k
    decreases |tools|
  {
    if tools == [] then map[]
    else
      var init := tools[..|tools| - 1];
      var last := tools[|tools| - 1];
      assert forall i :: 0 <= i < |init| ==> init[i] == tools[i];
      assert forall t :: t in init ==> t in tools;
      Registry(init)[ToolKey(last) := last]
  }

  /** A later tool with the same key replaces an earlier one: each key maps to
      the last tool that has it. */
  lemma {:induction false} RegistryLastWins(tools: seq<Tool>, i: nat)
    requires i < |tools| && LastWithKey(tools, i)
    ensures Registry(tools)[ToolKey(tools[i])] == tools[i]
    decreases |tools|
  {
    var init := tools[..|tools| - 1];
    if i < |tools| - 1 {
      assert init[i] == tools[i];
      assert LastWithKey(init, i) by {
        forall j | i < j < |init| ensures ToolKey(init[j]) != ToolKey(init[i]) {
          assert init[j] == tools[j];
        }
      }
      RegistryLastWins(init, i);
    }
  }

  // ---------------------------------------------------------------------
  // Prompt
  // ---------------------------------------------------------------------

  /** The prompt template of `CustomAgent.execute_task` filled in: six lines
      joined by line breaks. */
  function Prompt(role: string, goal: string, backstory: string, context: string, task: string): string {
    Join(["[ROLE] " + role, "[GOAL] " + goal, "[BACKSTORY] " + backstory,
          "[CONTEXT] " + context, "[TASK] " + task, "Response:"], '\n')
  }

  /** The model's answer as the agent passes it on. */
  function Lift(answer: Result<string, string>): Result<string, Error> {
    match answer
    case Success(text) => Success(text)
    case Failure(message) => Failure(Raised(message))
  }

  /** With a persona free of line breaks, the prompt's first three lines are the
      persona lines, then come the lines of the context section, the lines of the
      task section, and the closing cue. */
  lemma PromptLines(role: string, goal: string, backstory: string, context: string, task: string)
    requires '\n' !in role && '\n' !in goal && '\n' !in backstory
    ensures Split(Prompt(role, goal, backstory, context, task), '\n') ==
            ["[ROLE] " + role, "[GOAL] " + goal, "[BACKSTORY] " + backstory]
            + (Split("[CONTEXT] " + context, '\n') + Split("[TASK] " + task, '\n') + ["Response:"])
  {
    var a, b, c := "[ROLE] " + role, "[GOAL] " + goal, "[BACKSTORY] " + backstory;
    var d, e, f := "[CONTEXT] " + context, "[TASK] " + task, "Response:";
    var lines := [a, b, c, d, e, f];
    var t3 := Split(d, '\n') + Split(e, '\n') + [f];
    assert Split(Join(lines[3..], '\n'), '\n') == t3 by {
      SplitLastLines(d, e, f);
      assert lines[3..] == [d, e, f];
    }
    assert Split(Join(lines, '\n'), '\n') == [a, b, c] + t3 by {
      NoLineBreak("[ROLE] ", role);
      NoLineBreak("[GOAL] ", goal);
      NoLineBreak("[BACKSTORY] ", backstory);
      SplitLeadingPieces([a, b, c], lines[3..], '\n');
      assert lines == [a, b, c] + lines[3..];
    }
    assert Prompt(role, goal, backstory, context, task) == Join(lines, '\n');
  }

  lemma SplitLastLines(d: string, e: string, f: string)
    requires '\n' !in f
    ensures Split(Join([d, e, f], '\n'), '\n') == Split(d, '\n') + Split(e, '\n') + [f]
  {
    JoinCons(e, [f], '\n');
    JoinCons(d, [e, f], '\n');
    assert [d] + [e, f] == [d, e, f] && [e] + [f] == [e, f];
    SplitAround(e, f, '\n');
    SplitAround(d, e + ['\n'] + f, '\n');
    SplitWithoutSeparator(f, '\n');
  }

  lemma NoLineBreak(prefix: string, s: string)
    requires '\n' !in prefix && '\n' !in s
    ensures '\n' !in prefix + s
  {
  }

  /** With no line break in any argument the prompt has exactly six lines. */
  lemma PromptHasSixLines(role: string, goal: string, backstory: string, context: string, task: string)
    requires '\n' !in role && '\n' !in goal && '\n' !in backstory && '\n' !in context && '\n' !in task
    ensures |Split(Prompt(role, goal, backstory, context, task), '\n')| == 6
  {
    PromptLines(role, goal, backstory, context, task);
    var d, e := "[CONTEXT] " + context, "[TASK] " + task;
    assert '\n' !in d by { assert d[10..] == context; }
    assert '\n' !in e by { assert e[7..] == task; }
    SplitWithoutSeparator(d, '\n');
    SplitWithoutSeparator(e, '\n');
  }

  class Agent {
    const role: string
    const goal: string
    const backstory: string
    const tools: map<string, Tool>
    const llm: Handle

    constructor (role: string, goal: string, backstory: string, tools: seq<Tool>, llm: Handle)
      ensures this.role == role && this.goal == goal && this.backstory == backstory
      ensures this.tools == Registry(tools) && this.llm == llm
    {
      this.role := role;
      this.goal := goal;
      this.backstory := backstory;
      this.tools := Registry(tools);
      this.llm := llm;
    }

    /** `execute_task`: one call of the agent's model with the prompt built from
        the agent's persona and the given context and task. */
    function ExecuteTask(task: string, context: string, world: World, history: seq<Event>): (Result<string, Error>, seq<Event>) {
      var call := ModelCall(llm, Prompt(role, goal, backstory, context, task));
      (Lift(world(history, call)), history + [call])
    }
  }

  // ---------------------------------------------------------------------
  // Task
  // ---------------------------------------------------------------------

  /** The state of the tool loop of `CustomTask.execute`: the context text so far,
      the events so far, and the message of the exception a tool raised, if any. */
  datatype ToolsState = ToolsState(context: string, trace: seq<Event>, raised: Option<string>)

  /** The line a tool's answer adds to the context. */
  function ToolLine(name: string, out: string): string {
    "\nTool " + name + " output: " + out
  }

  /** The tool loop over `names`, from `start`: a name in the registry calls its
      tool with the whole inputs and appends the answer to the context; a name not
      in the registry is passed over; an exception stops the loop. */
  function RunTools(names: seq<string>, registry: map<string, Tool>, inputs: Inputs, world: World, start: ToolsState): ToolsState
    decreases |names|
  {
    if names == [] then start
    else
      var s := RunTools(names[..|names| - 1], registry, inputs, world, start);
      var name := names[|names| - 1];
      if s.raised.Some? || name !in registry then s
      else
        var call := ToolCall(name, registry[name], inputs);
        match world(s.trace, call)
        case Success(out) => ToolsState(s.context + ToolLine(name, out), s.trace + [call], None)
        case Failure(message) => ToolsState(s.context, s.trace + [call], Some(message))
  }

  /** After an exception the rest of the names change nothing. */
  lemma {:induction false} RunToolsStaysRaised(names: seq<string>, k: nat, registry: map<string, Tool>, inputs: Inputs, world: World, start: ToolsState)
    requires k <= |names|
    requires RunTools(names[..k], registry, inputs, world, start).raised.Some?
    ensures RunTools(names, registry, inputs, world, start) == RunTools(names[..k], registry, inputs, world, start)
    decreases |names| - k
  {
    if k < |names| {
      assert names[..k + 1][..k] == names[..k];
      RunToolsStaysRaised(names, k + 1, registry, inputs, world, start);
    } else {
      assert names[..k] == names;
    }
  }

  /** The tool calls of the loop when no tool raises: one for each listed name
      that is in the registry, in list order, each given the whole inputs. */
  function ToolEvents(names: seq<string>, registry: map<string, Tool>, inputs: Inputs): seq<Event>
    decreases |names|
  {
    if names == [] then []
    else
      var name := names[|names| - 1];
      ToolEvents(names[..|names| - 1], registry, inputs)
        + (if name in registry then [ToolCall(name, registry[name], inputs)] else [])
  }

  /** The line a tool call adds to the context when it answers. */
  function Segment(call: Event, answer: Result<string, string>): string {
    if call.ToolCall? && answer.Success? then ToolLine(call.name, answer.value) else []
  }

  /** The context text `calls` add, each answered by `world` after `history`
      and the calls before it. */
  function Segments(world: World, history: seq<Event>, calls: seq<Event>): string
    decreases |calls|
  {
    if calls == [] then []
    else
      var init := calls[..|calls| - 1];
      var call := calls[|calls| - 1];
      Segments(world, history, init) + Segment(call, world(history + init, call))
  }

  /** When no tool raises, the registered tools are called in list order with
      the whole inputs, and each answer becomes one `Tool <name> output:` line
      appended to the context. */
  lemma {:induction false} ToolsRunInOrder(names: seq<string>, registry: map<string, Tool>, inputs: Inputs, world: World, context: string, history: seq<Event>)
    requires RunTools(names, registry, inputs, world, ToolsState(context, history, None)).raised.None?
    ensures RunTools(names, registry, inputs, world, ToolsState(context, history, None)).trace
            == history + ToolEvents(names, registry, inputs)
    ensures RunTools(names, registry, inputs, world, ToolsState(context, history, None)).context
            == context + Segments(world, history, ToolEvents(names, registry, inputs))
    decreases |names|
  {
    if names != [] {
      var start := ToolsState(context, history, None);
      var init := names[..|names| - 1];
      var name := names[|names| - 1];
      var s := RunTools(init, registry, inputs, world, start);
      var calls := ToolEvents(init, registry, inputs);
      ToolsRunInOrder(init, registry, inputs, world, context, history);
      if name in registry {
        ToolStepAnswered(world, history, calls, ToolCall(name, registry[name], inputs), context);
      } else {
        assert ToolEvents(names, registry, inputs) == calls + [] == calls;
      }
    }
  }

  /** One answered tool call: its event joins the trace and its line the context. */
  lemma ToolStepAnswered(world: World, history: seq<Event>, calls: seq<Event>, call: Event, context: string)
    requires call.ToolCall? && world(history + calls, call).Success?
    ensures (history + calls) + [call] == history + (calls + [call])
    ensures context + Segments(world, history, calls) + ToolLine(call.name, world(history + calls, call).value)
            == context + Segments(world, history, calls + [call])
  {
    SnocPrefix(calls, call);
    SnocAssoc(history, calls, call);
    ConcatAssoc(context, Segments(world, history, calls), ToolLine(call.name, world(history + calls, call).value));
  }

  lemma SnocPrefix<T>(xs: seq<T>, x: T)
    ensures (xs + [x])[..|xs|] == xs && (xs + [x])[|xs|] == x
  {
  }

  lemma AppendNothing<T>(xs: seq<T>)
    ensures xs + [] == xs
  {
  }

  lemma PrefixOfInit<T>(xs: seq<T>, k: nat)
    requires k < |xs|
    ensures xs[..|xs| - 1][..k] == xs[..k]
  {
  }

  lemma SnocAssoc<T>(a: seq<T>, b: seq<T>, x: T)
    ensures (a + b) + [x] == a + (b + [x])
  {
  }

  /** The loop stopped at tool `k`: the tools before it answered, its call was
      the last event, and it raised `message`. */
  predicate ToolFailedAt(names: seq<string>, k: nat, registry: map<string, Tool>, inputs: Inputs, world: World,
                         context: string, history: seq<Event>, trace: seq<Event>, message: string)
    requires k < |names|
  {
    var calls := ToolEvents(names[..k], registry, inputs);
    && RunTools(names[..k], registry, inputs, world, ToolsState(context, history, None)).raised.None?
    && names[k] in registry
    && var call := ToolCall(names[k], registry[names[k]], inputs);
       world(history + calls, call) == Failure(message) && trace == history + calls + [call]
  }

  /** A tool that raises stops the loop at once: no later tool is called. */
  lemma {:induction false} ToolFailureStopsLoop(names: seq<string>, registry: map<string, Tool>, inputs: Inputs, world: World, context: string, history: seq<Event>)
    requires RunTools(names, registry, inputs, world, ToolsState(context, history, None)).raised.Some?
    ensures var s := RunTools(names, registry, inputs, world, ToolsState(context, history, None));
            exists k: nat :: k < |names| && ToolFailedAt(names, k, registry, inputs, world, context, history, s.trace, s.raised.value)
    decreases |names|
  {
    var start := ToolsState(context, history, None);
    var s := RunTools(names, registry, inputs, world, start);
    var init := names[..|names| - 1];
    var s' := RunTools(init, registry, inputs, world, start);
    if s'.raised.Some? {
      ToolFailureStopsLoop(init, registry, inputs, world, context, history);
      var k: nat :| k < |init| && ToolFailedAt(init, k, registry, inputs, world, context, history, s'.trace, s'.raised.value);
      PrefixOfInit(names, k);
      assert ToolFailedAt(names, k, registry, inputs, world, context, history, s.trace, s.raised.value);
    } else {
      var k := |names| - 1;
      assert names[..k] == init;
      ToolsRunInOrder(init, registry, inputs, world, context, history);
      assert ToolFailedAt(names, k, registry, inputs, world, context, history, s.trace, s.raised.value);
    }
  }

  /** The listed names that are in the registry, in list order. */
  function Registered(names: seq<string>, registry: map<string, Tool>): (r: seq<string>)
    ensures forall i :: 0 <= i < |r| ==> r[i] in registry
    decreases |names|
  {
    if names == [] then []
    else
      var name := names[|names| - 1];
      Registered(names[..|names| - 1], registry) + (if name in registry then [name] else [])
  }

  /** Names missing from the registry are passed over silently: the loop does
      exactly what it does on the registered names alone. */
  lemma {:induction false} UnregisteredNamesSkipped(names: seq<string>, registry: map<string, Tool>, inputs: Inputs, world: World, start: ToolsState)
    ensures RunTools(names, registry, inputs, world, start)
            == RunTools(Registered(names, registry), registry, inputs, world, start)
    decreases |names|
  {
    if names != [] {
      var init := names[..|names| - 1];
      var name := names[|names| - 1];
      UnregisteredNamesSkipped(init, registry, inputs, world, start);
      var r := Registered(init, registry);
      if name in registry {
        assert Registered(names, registry) == r + [name];
        SnocPrefix(r, name);
      } else {
        AppendNothing(r);
      }
    }
  }

  /** The number of model calls among `events`. */
  function ModelCalls(events: seq<Event>): nat
    decreases |events|
  {
    if events == [] then 0
    else ModelCalls(events[..|events| - 1]) + (if events[|events| - 1].ModelCall? then 1 else 0)
  }

  lemma {:induction false} ModelCallsAppend(a: seq<Event>, b: seq<Event>)
    ensures ModelCalls(a + b) == ModelCalls(a) + ModelCalls(b)
    decreases |b|
  {
    if b == [] {
      assert a + b == a;
    } else {
      assert (a + b)[..|a + b| - 1] == a + b[..|b| - 1];
      ModelCallsAppend(a, b[..|b| - 1]);
    }
  }

  /** The tool loop only calls tools and only extends the history. */
  lemma {:induction false} ToolLoopCallsNoModel(names: seq<string>, registry: map<string, Tool>, inputs: Inputs, world: World, start: ToolsState)
    ensures start.trace <= RunTools(names, registry, inputs, world, start).trace
    ensures ModelCalls(RunTools(names, registry, inputs, world, start).trace) == ModelCalls(start.trace)
    decreases |names|
  {
    if names != [] {
      var init := names[..|names| - 1];
      ToolLoopCallsNoModel(init, registry, inputs, world, start);
      var s := RunTools(init, registry, inputs, world, start);
      var name := names[|names| - 1];
      if s.raised.None? && name in registry {
        ToolCallExtends(s.trace, ToolCall(name, registry[name], inputs));
      }
    }
  }

  /** Recording a tool call extends the history and adds no model call. */
  lemma ToolCallExtends(trace: seq<Event>, call: Event)
    requires call.ToolCall?
    ensures trace <= trace + [call]
    ensures ModelCalls(trace + [call]) == ModelCalls(trace)
  {
    assert (trace + [call])[..|trace|] == trace;
  }

  /** A world whose answers do not depend on what was asked before. */
  ghost predicate Stateless(world: World) {
    forall h: seq<Event>, e: Event :: world(h, e) == world([], e)
  }

  /** With a stateless world the tool loop's context and outcome do not depend on
      the history it starts from. */
  lemma {:induction false} ToolLoopIgnoresHistory(names: seq<string>, registry: map<string, Tool>, inputs: Inputs, world: World, context: string, h1: seq<Event>, h2: seq<Event>)
    requires Stateless(world)
    ensures RunTools(names, registry, inputs, world, ToolsState(context, h1, None)).context
            == RunTools(names, registry, inputs, world, ToolsState(context, h2, None)).context
    ensures RunTools(names, registry, inputs, world, ToolsState(context, h1, None)).raised
            == RunTools(names, registry, inputs, world, ToolsState(context, h2, None)).raised
    decreases |names|
  {
    if names != [] {
      ToolLoopIgnoresHistory(names[..|names| - 1], registry, inputs, world, context, h1, h2);
    }
  }

  class Task {
    const description: string
    const expectedOutput: string
    const agent: Agent
    const tools: seq<string>
    const context: seq<string>

    /** `context or []`: a missing context list is an empty one. */
    constructor (description: string, expectedOutput: string, agent: Agent, tools: seq<string>, context: Option<seq<string>>)
      ensures this.description == description && this.expectedOutput == expectedOutput
      ensures this.agent == agent && this.tools == tools && this.context == context.GetOr([])
    {
      this.description := description;
      this.expectedOutput := expectedOutput;
      this.agent := agent;
      this.tools := tools;
      this.context := context.GetOr([]);
    }

    /** What `execute` does: the result and the events it causes. */
    function Run(inputs: Option<Inputs>, world: World, history: seq<Event>): (Result<string, Error>, seq<Event>) {
      var context := Join(this.context, '\n');
      if inputs.None? then (Failure(NotAMapping), history)
      else
        match Template.Format(description, inputs.value)
        case Failure(e) => (Failure(TemplateError(e)), history)
        case Success(taskInput) =>
          var s := RunTools(tools, agent.tools, inputs.value, world, ToolsState(context, history, None));
          if s.raised.Some? then (Failure(Raised(s.raised.value)), s.trace)
          else agent.ExecuteTask(taskInput, s.context, world, s.trace)
    }

    /** `CustomTask.execute`. */
    method Execute(inputs: Option<Inputs>, world: World, history: seq<Event>) returns (r: Result<string, Error>, trace: seq<Event>)
      ensures (r, trace) == Run(inputs, world, history)
    {
      var ctx := Join(context, '\n');
      if inputs.None? {
        return Failure(NotAMapping), history;
      }
      var taskInput := Template.Format(description, inputs.value);
      if taskInput.Failure? {
        return Failure(TemplateError(taskInput.error)), history;
      }
      ghost var start := ToolsState(ctx, history, None);
      trace := history;
      var i := 0;
      while i < |tools|
        invariant 0 <= i <= |tools|
        invariant RunTools(tools[..i], agent.tools, inputs.value, world, start) == ToolsState(ctx, trace, None)
      {
        var name := tools[i];
        assert tools[..i + 1][..i] == tools[..i];
        if name in agent.tools {
          var call := ToolCall(name, agent.tools[name], inputs.value);
          var toolResult := world(trace, call);
          trace := trace + [call];
          if toolResult.Failure? {
            RunToolsStaysRaised(tools, i + 1, agent.tools, inputs.value, world, start);
            return Failure(Raised(toolResult.error)), trace;
          }
          ctx := ctx + ToolLine(name, toolResult.value);
        }
        i := i + 1;
      }
      assert tools[..|tools|] == tools;
      var answer := agent.ExecuteTask(taskInput.value, ctx, world, trace);
      r, trace := answer.0, answer.1;
    }
  }


  /** A task that succeeds filled its description from the inputs, called the
      registered tools in list order, then asked its agent's model once, with
      the prompt built from its persona, its context lines followed by the tool
      outputs, and the filled description; the output is the model's answer
      unchanged. */
  lemma TaskSucceeded(t: Task, inputs: Inputs, world: World, history: seq<Event>)
    requires t.Run(Some(inputs), world, history).0.Success?
    ensures Template.Format(t.description, inputs).Success?
    ensures var calls := ToolEvents(t.tools, t.agent.tools, inputs);
            var ask := ModelCall(t.agent.llm, Prompt(t.agent.role, t.agent.goal, t.agent.backstory,
                                                     Join(t.context, '\n') + Segments(world, history, calls),
                                                     Template.Format(t.description, inputs).value));
            && t.Run(Some(inputs), world, history).1 == history + calls + [ask]
            && world(history + calls, ask) == Success(t.Run(Some(inputs), world, history).0.value)
  {
    ToolsRunInOrder(t.tools, t.agent.tools, inputs, world, Join(t.context, '\n'), history);
  }

  /** A description the inputs cannot fill (a stray brace, a positional field,
      a missing key) raises its format error before any tool or model is called. */
  lemma UnfillableDescriptionCallsNothing(t: Task, inputs: Inputs, world: World, history: seq<Event>)
    requires !(Template.FieldNames(t.description).Some?
               && Template.Fillable(Template.FieldNames(t.description).value, inputs))
    ensures Template.Format(t.description, inputs).Failure?
    ensures t.Run(Some(inputs), world, history)
            == (Failure(TemplateError(Template.Format(t.description, inputs).error)), history)
  {
    Template.FormatSucceedsIff(t.description, inputs);
  }

  /** A KeyError from a task names a `{key}` field of its description that the
      inputs lack, and nothing was called before it. */
  lemma MissingInputRaisesKeyError(t: Task, inputs: Inputs, world: World, history: seq<Event>, key: string)
    requires t.Run(Some(inputs), world, history).0 == Failure(TemplateError(Template.MissingKey(key)))
    ensures key !in inputs && exists i: nat :: OccursAt(t.description, "{" + key + "}", i)
    ensures t.Run(Some(inputs), world, history).1 == history
  {
    if Template.Format(t.description, inputs).Failure? {
      Template.MissingKeyIsField(t.description, inputs, key);
    }
  }

  /** A task only adds events, asks the model at most once, and exactly once
      when it succeeds. */
  lemma TaskAsksModelAtMostOnce(t: Task, inputs: Option<Inputs>, world: World, history: seq<Event>)
    ensures history <= t.Run(inputs, world, history).1
    ensures ModelCalls(t.Run(inputs, world, history).1) <= ModelCalls(history) + 1
    ensures t.Run(inputs, world, history).0.Success? ==>
              ModelCalls(t.Run(inputs, world, history).1) == ModelCalls(history) + 1
  {
    if inputs.Some? && Template.Format(t.description, inputs.value).Success? {
      var start := ToolsState(Join(t.context, '\n'), history, None);
      ToolLoopCallsNoModel(t.tools, t.agent.tools, inputs.value, world, start);
      var s := RunTools(t.tools, t.agent.tools, inputs.value, world, start);
      if s.raised.None? {
        var step := t.agent.ExecuteTask(Template.Format(t.description, inputs.value).value, s.context, world, s.trace);
        assert step.1[..|step.1| - 1] == s.trace;
      }
    }
  }

  /** The last event of `trace` is one the world answered by raising `message`. */
  predicate WorldRaisedLast(world: World, trace: seq<Event>, message: string) {
    |trace| > 0 && world(trace[..|trace| - 1], trace[|trace| - 1]) == Failure(message)
  }

  /** A task that raises an exception of a tool or the model raises the one
      the world gave on the last call the task made. */
  lemma TaskReraises(t: Task, inputs: Option<Inputs>, world: World, history: seq<Event>, message: string)
    requires t.Run(inputs, world, history).0 == Failure(Raised(message))
    ensures |history| < |t.Run(inputs, world, history).1|
    ensures WorldRaisedLast(world, t.Run(inputs, world, history).1, message)
  {
    var start := ToolsState(Join(t.context, '\n'), history, None);
    var s := RunTools(t.tools, t.agent.tools, inputs.value, world, start);
    var trace := t.Run(inputs, world, history).1;
    if s.raised.Some? {
      ToolFailureStopsLoop(t.tools, t.agent.tools, inputs.value, world, Join(t.context, '\n'), history);
      var k: nat :| k < |t.tools| && ToolFailedAt(t.tools, k, t.agent.tools, inputs.value, world, Join(t.context, '\n'), history, s.trace, s.raised.value);
      var calls := ToolEvents(t.tools[..k], t.agent.tools, inputs.value);
      var call := ToolCall(t.tools[k], t.agent.tools[t.tools[k]], inputs.value);
      assert trace == history + calls + [call];
      assert trace[..|trace| - 1] == history + calls;
    } else {
      var step := t.agent.ExecuteTask(Template.Format(t.description, inputs.value).value, s.context, world, s.trace);
      assert trace == step.1 && step.1[..|step.1| - 1] == s.trace;
      ToolLoopCallsNoModel(t.tools, t.agent.tools, inputs.value, world, start);
    }
  }

  /** With a stateless world a task's result does not depend on the events
      before it. */
  lemma TaskIgnoresHistory(t: Task, inputs: Option<Inputs>, world: World, h1: seq<Event>, h2: seq<Event>)
    requires Stateless(world)
    ensures t.Run(inputs, world, h1).0 == t.Run(inputs, world, h2).0
  {
    if inputs.Some? && Template.Format(t.description, inputs.value).Success? {
      ToolLoopIgnoresHistory(t.tools, t.agent.tools, inputs.value, world, Join(t.context, '\n'), h1, h2);
    }
  }

  // ---------------------------------------------------------------------
  // Crew
  // ---------------------------------------------------------------------

  /** The state of the loop of `kickoff`: the results so far, the events so far,
      and the exception a task raised, if any. */
  datatype CrewState = CrewState(results: map<string, string>, trace: seq<Event>, raised: Option<Error>)

  /** The loop of `kickoff` over `tasks`, from `start`: each task is executed with
      the same inputs and its output stored under its unresolved description. */
  function RunTasks(tasks: seq<Task>, inputs: Option<Inputs>, world: World, start: CrewState): CrewState
    decreases |tasks|
  {
    if tasks == [] then start
    else
      var s := RunTasks(tasks[..|tasks| - 1], inputs, world, start);
      var task := tasks[|tasks| - 1];
      if s.raised.Some? then s
      else
        var step := task.Run(inputs, world, s.trace);
        match step.0
        case Success(out) => CrewState(s.results[task.description := out], step.1, None)
        case Failure(e) => CrewState(s.results, step.1, Some(e))
  }

  /** After a task raised, the rest of the tasks change nothing. */
  lemma {:induction false} RunTasksStaysRaised(tasks: seq<Task>, k: nat, inputs: Option<Inputs>, world: World, start: CrewState)
    requires k <= |tasks|
    requires RunTasks(tasks[..k], inputs, world, start).raised.Some?
    ensures RunTasks(tasks, inputs, world, start) == RunTasks(tasks[..k], inputs, world, start)
    decreases |tasks| - k
  {
    if k < |tasks| {
      assert tasks[..k + 1][..k] == tasks[..k];
      RunTasksStaysRaised(tasks, k + 1, inputs, world, start);
    } else {
      assert tasks[..k] == tasks;
    }
  }


  /** The state `kickoff` reaches over `tasks`, starting from `history`. */
  function Kicked(tasks: seq<Task>, inputs: Option<Inputs>, world: World, history: seq<Event>): CrewState {
    RunTasks(tasks, inputs, world, CrewState(map[], history, None))
  }

  /** The result of task `i` in a kickoff over `tasks`: it runs after the
      events of the tasks before it, with the same inputs. */
  function OutputOf(tasks: seq<Task>, i: nat, inputs: Option<Inputs>, world: World, history: seq<Event>): Result<string, Error>
    requires i < |tasks|
  {
    tasks[i].Run(inputs, world, Kicked(tasks[..i], inputs, world, history).trace).0
  }

  /** The descriptions of `tasks`. */
  function Descriptions(tasks: seq<Task>): set<string> {
    set i | 0 <= i < |tasks| :: tasks[i].description
  }

  /** A kickoff that succeeds ran every task, and every task succeeded. */
  lemma {:induction false} KickoffRanEveryTask(tasks: seq<Task>, inputs: Option<Inputs>, world: World, history: seq<Event>, i: nat)
    requires Kicked(tasks, inputs, world, history).raised.None?
    requires i < |tasks|
    ensures Kicked(tasks[..i], inputs, world, history).raised.None?
    ensures OutputOf(tasks, i, inputs, world, history).Success?
    decreases |tasks|
  {
    var init := tasks[..|tasks| - 1];
    if i < |tasks| - 1 {
      KickoffRanEveryTask(init, inputs, world, history, i);
      assert init[..i] == tasks[..i];
    }
  }

  /** The results of a successful kickoff are keyed by exactly the tasks'
      descriptions. */
  lemma {:induction false} KickoffResultKeys(tasks: seq<Task>, inputs: Option<Inputs>, world: World, history: seq<Event>)
    requires Kicked(tasks, inputs, world, history).raised.None?
    ensures Kicked(tasks, inputs, world, history).results.Keys == Descriptions(tasks)
    decreases |tasks|
  {
    if tasks != [] {
      var init := tasks[..|tasks| - 1];
      KickoffResultKeys(init, inputs, world, history);
      var last := tasks[|tasks| - 1];
      assert Descriptions(tasks) == Descriptions(init) + {last.description} by {
        forall d | d in Descriptions(tasks) ensures d in Descriptions(init) + {last.description} {
          var i :| 0 <= i < |tasks| && tasks[i].description == d;
          if i < |tasks| - 1 { assert init[i] == tasks[i]; }
        }
        forall d | d in Descriptions(init) ensures d in Descriptions(tasks) {
          var i :| 0 <= i < |init| && init[i].description == d;
          assert tasks[i] == init[i];
        }
      }
    }
  }

  /** Two tasks with the same description share one key, and the later one's
      output is the one kept. */
  lemma {:induction false} KickoffLastWins(tasks: seq<Task>, inputs: Option<Inputs>, world: World, history: seq<Event>, i: nat)
    requires Kicked(tasks, inputs, world, history).raised.None?
    requires i < |tasks|
    requires forall j :: i < j < |tasks| ==> tasks[j].description != tasks[i].description
    ensures OutputOf(tasks, i, inputs, world, history).Success?
    ensures tasks[i].description in Kicked(tasks, inputs, world, history).results
    ensures Kicked(tasks, inputs, world, history).results[tasks[i].description]
            == OutputOf(tasks, i, inputs, world, history).value
    decreases |tasks|
  {
    var init := tasks[..|tasks| - 1];
    if i < |tasks| - 1 {
      KickoffLastWins(init, inputs, world, history, i);
      assert init[..i] == tasks[..i];
    } else {
      assert init == tasks[..i];
    }
  }

  /** A kickoff only adds events and asks the model at most once per task;
      one that succeeds asks it exactly once per task. */
  lemma {:induction false} KickoffModelCalls(tasks: seq<Task>, inputs: Option<Inputs>, world: World, history: seq<Event>)
    ensures history <= Kicked(tasks, inputs, world, history).trace
    ensures ModelCalls(Kicked(tasks, inputs, world, history).trace) <= ModelCalls(history) + |tasks|
    ensures Kicked(tasks, inputs, world, history).raised.None? ==>
              ModelCalls(Kicked(tasks, inputs, world, history).trace) == ModelCalls(history) + |tasks|
    decreases |tasks|
  {
    if tasks != [] {
      var init := tasks[..|tasks| - 1];
      KickoffModelCalls(init, inputs, world, history);
      var s := Kicked(init, inputs, world, history);
      if s.raised.None? {
        TaskAsksModelAtMostOnce(tasks[|tasks| - 1], inputs, world, s.trace);
      }
    }
  }

  /** The kickoff stopped at task `k`: the tasks before it succeeded, task `k`
      raised the kickoff's exception, and its events are the last ones. */
  predicate StoppedAt(tasks: seq<Task>, k: nat, inputs: Option<Inputs>, world: World, history: seq<Event>, final: CrewState)
    requires k < |tasks|
  {
    var before := Kicked(tasks[..k], inputs, world, history);
    var step := tasks[k].Run(inputs, world, before.trace);
    && before.raised.None?
    && step.0.Failure?
    && final.raised == Some(step.0.error)
    && final.trace == step.1
  }

  /** The first task that raises ends the kickoff: no later task runs, and the
      exception is the kickoff's. */
  lemma {:induction false} KickoffFailsFast(tasks: seq<Task>, inputs: Option<Inputs>, world: World, history: seq<Event>)
    requires Kicked(tasks, inputs, world, history).raised.Some?
    ensures exists k: nat :: k < |tasks| && StoppedAt(tasks, k, inputs, world, history, Kicked(tasks, inputs, world, history))
    decreases |tasks|
  {
    var final := Kicked(tasks, inputs, world, history);
    var init := tasks[..|tasks| - 1];
    if Kicked(init, inputs, world, history).raised.Some? {
      KickoffFailsFast(init, inputs, world, history);
      var k: nat :| k < |init| && StoppedAt(init, k, inputs, world, history, Kicked(init, inputs, world, history));
      assert init[..k] == tasks[..k];
      assert StoppedAt(tasks, k, inputs, world, history, final);
    } else {
      assert StoppedAt(tasks, |tasks| - 1, inputs, world, history, final);
    }
  }

  /** A kickoff that raises an exception of a tool or the model raises the one
      the world gave on the last call made. */
  lemma KickoffReraises(tasks: seq<Task>, inputs: Option<Inputs>, world: World, history: seq<Event>, message: string)
    requires Kicked(tasks, inputs, world, history).raised == Some(Raised(message))
    ensures WorldRaisedLast(world, Kicked(tasks, inputs, world, history).trace, message)
  {
    KickoffFailsFast(tasks, inputs, world, history);
    var k: nat :| k < |tasks| && StoppedAt(tasks, k, inputs, world, history, Kicked(tasks, inputs, world, history));
    TaskReraises(tasks[k], inputs, world, Kicked(tasks[..k], inputs, world, history).trace, message);
  }

  /** Without an inputs mapping the first task raises at once and nothing is
      called. */
  lemma KickoffWithoutInputs(tasks: seq<Task>, world: World, history: seq<Event>)
    requires tasks != []
    ensures Kicked(tasks, None, world, history) == CrewState(map[], history, Some(NotAMapping))
  {
    assert tasks[..1][..0] == [];
    RunTasksStaysRaised(tasks, 1, None, world, CrewState(map[], history, None));
  }

  /** The outputs of earlier tasks are never handed to later ones: with a
      stateless world each task gives what it gives when run alone. */
  lemma KickoffIgnoresEarlierOutputs(tasks: seq<Task>, inputs: Option<Inputs>, world: World, history: seq<Event>, i: nat)
    requires Stateless(world)
    requires i < |tasks|
    ensures OutputOf(tasks, i, inputs, world, history) == tasks[i].Run(inputs, world, []).0
  {
    TaskIgnoresHistory(tasks[i], inputs, world, Kicked(tasks[..i], inputs, world, history).trace, []);
  }

  class Crew {
    const tasks: seq<Task>
    const agents: seq<Agent>
    const process: string

    constructor (tasks: seq<Task>, agents: seq<Agent>, process: string)
      ensures this.tasks == tasks && this.agents == agents && this.process == process
    {
      this.tasks := tasks;
      this.agents := agents;
      this.process := process;
    }

    /** What `kickoff` does: the results by description, or the first exception,
        and the events it causes. */
    function Run(inputs: Option<Inputs>, world: World, history: seq<Event>): (Result<map<string, string>, Error>, seq<Event>) {
      var s := Kicked(tasks, inputs, world, history);
      (if s.raised.Some? then Failure(s.raised.value) else Success(s.results), s.trace)
    }

    /** `CustomCrew.kickoff`. */
    method Kickoff(inputs: Option<Inputs>, world: World, history: seq<Event>) returns (r: Result<map<string, string>, Error>, trace: seq<Event>)
      ensures (r, trace) == Run(inputs, world, history)
    {
      var results: map<string, string> := map[];
      var context: seq<string> := [];  // collected, and never handed to any task
      ghost var start := CrewState(map[], history, None);
      trace := history;
      var i := 0;
      while i < |tasks|
        invariant 0 <= i <= |tasks|
        invariant RunTasks(tasks[..i], inputs, world, start) == CrewState(results, trace, None)
      {
        var task := tasks[i];
        assert tasks[..i + 1][..i] == tasks[..i];
        var result;
        result, trace := task.Execute(inputs, world, trace);
        if result.Failure? {
          RunTasksStaysRaised(tasks, i + 1, inputs, world, start);
          return Failure(result.error), trace;
        }
        results := results[task.description := result.value];
        context := context + [result.value];
        i := i + 1;
      }
      assert tasks[..|tasks|] == tasks;
      r := Success(results);
    }
  }
}
