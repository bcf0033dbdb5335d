/** The tool contract and the dispatcher that runs tool calls
    (src/tools/base.py): the records a call and its result are made of,
    a tool's two schema renderings, and the executor that resolves a call
    by name, runs the tool and turns every outcome into one result. */
module ToolBase {
  import opened Wrappers
  import opened Text

  /** A value in a call's arguments or in a parameter's item schema:
      `str | int | float | dict | list | None`. */
  datatype Value =
    | Str(s: string)
    | Int(i: int)
    | Float(f: real)
    | Dict(entries: map<string, Value>)
    | List(items: seq<Value>)
    | Null

  /** `ToolCallArguments`: argument name to value. */
  type Arguments = map<string, Value>

  /** The exception a tool raises for a failure it reports itself. */
  datatype ToolError = ToolError(message: Option<string> := None)

  /** What a tool's `execute` hands back before the executor correlates it. */
  datatype ToolExecuteResult = ToolExecuteResult(
    result: Option<string> := None,
    error: Option<string> := None,
    errorCode: int := 0)

  /** The correlated result of one call. */
  datatype ToolResult = ToolResult(
    callId: string,
    name: string,
    success: bool,
    result: Option<string> := None,
    error: Option<string> := None,
    id: Option<string> := None)

  /** One request, parsed from a model response, to run the tool `name`. */
  datatype ToolCall = ToolCall(
    name: string,
    callId: string,
    id: Option<string> := None,
    arguments: Arguments := map[])

  /** A parameter's type: one type name or a list of them. */
  datatype ParamType = Single(typeName: string) | Union(typeNames: seq<string>)

  /** One declared parameter; a parameter is required unless it says otherwise. */
  datatype ToolParameter = ToolParameter(
    name: string,
    paramType: ParamType,
    description: string,
    enum: Option<seq<string>> := None,
    items: Option<map<string, Value>> := None,
    required: bool := true)

  /** How one run of a tool's `execute` ends: it returns, or it raises an
      exception whose `repr` is `fault`. */
  datatype ExecOutcome = Returned(value: ToolExecuteResult) | Raised(fault: string)

  /** A tool: its identity, its schema and what `execute` does with a given
      set of arguments. The executor only reads these, so they are constant. */
  class Tool {
    const modelProvider: Option<string>
    const name: string
    const description: string
    const parameters: seq<ToolParameter>
    const execute: Arguments -> ExecOutcome

    constructor (modelProvider: Option<string>, name: string, description: string,
                 parameters: seq<ToolParameter>, execute: Arguments -> ExecOutcome)
      ensures this.modelProvider == modelProvider && this.name == name
      ensures this.description == description && this.parameters == parameters
      ensures this.execute == execute
    {
      this.modelProvider := modelProvider;
      this.name := name;
      this.description := description;
      this.parameters := parameters;
      this.execute := execute;
    }
  }

  /** The structured definition passed to a function-calling API. */
  datatype ToolDefinition = ToolDefinition(
    name: string,
    description: string,
    parameters: seq<ToolParameter>)

  function JsonDefinition(t: Tool): (d: ToolDefinition)
    ensures d.name == t.name && d.description == t.description
    ensures d.parameters == t.parameters
  {
    ToolDefinition(t.name, t.description, t.parameters)
  }

  function OpeningTag(name: string): string
  {
    "<" + name + ">"
  }

  function ClosingTag(name: string): string
  {
    "</" + name + ">"
  }

  function ParameterLine(p: ToolParameter): string
  {
    OpeningTag(p.name) + p.description + ClosingTag(p.name)
  }

  function XmlLines(t: Tool): seq<string>
  {
    [OpeningTag(t.name)]
      + seq(|t.parameters|, i requires 0 <= i < |t.parameters| => ParameterLine(t.parameters[i]))
      + [ClosingTag(t.name)]
  }

  /** The tag-delimited definition embedded in a prompt. */
  function XmlDefinition(t: Tool): string
  {
    Join(XmlLines(t), "\n")
  }

  /** When no name or description holds a newline, the XML definition has
      exactly one line per parameter between the tool's opening and closing
      tags, listing the parameters of the JSON definition in their order. */
  lemma XmlDefinitionLines(t: Tool)
    requires '\n' !in t.name
    requires forall p :: p in t.parameters ==> '\n' !in p.name && '\n' !in p.description
    ensures var lines := SplitOn(XmlDefinition(t), '\n');
      var ps := JsonDefinition(t).parameters;
      && |lines| == |ps| + 2
      && lines[0] == "<" + t.name + ">"
      && lines[|lines| - 1] == "</" + t.name + ">"
      && forall i :: 0 <= i < |ps| ==>
           lines[i + 1] == "<" + ps[i].name + ">" + ps[i].description + "</" + ps[i].name + ">"
  {
    var xs := XmlLines(t);
    forall i | 0 <= i < |xs| ensures '\n' !in xs[i] {
      if 0 < i < |xs| - 1 {
        assert t.parameters[i - 1] in t.parameters;
      }
    }
    SplitJoin(xs, '\n');
  }

  /** The names of the tools, in list order, duplicates included. */
  function ToolNames(tools: seq<Tool>): (names: seq<string>)
    ensures |names| == |tools| && forall i :: 0 <= i < |tools| ==> names[i] == tools[i].name
  {
    seq(|tools|, i requires 0 <= i < |tools| => tools[i].name)
  }

  ghost function NameSet(tools: seq<Tool>): set<string>
  {
    set i | 0 <= i < |tools| :: tools[i].name
  }

  /** `t` is the last tool in the list that is called `n`. */
  ghost predicate IsLastNamed(tools: seq<Tool>, n: string, t: Tool)
  {
    exists i :: 0 <= i < |tools| && tools[i] == t && t.name == n
      && forall j :: i < j < |tools| ==> tools[j].name != n
  }

  lemma NameSetSnoc(init: seq<Tool>, last: Tool)
    ensures NameSet(init + [last]) == NameSet(init) + {last.name}
  {
    var tools := init + [last];
    assert forall i :: 0 <= i < |init| ==> tools[i] == init[i];
    assert tools[|init|] == last;
  }

  lemma LastNamedSnoc(init: seq<Tool>, last: Tool, n: string, t: Tool)
    requires IsLastNamed(init, n, t) && last.name != n
    ensures IsLastNamed(init + [last], n, t)
  {
    var tools := init + [last];
    var i :| 0 <= i < |init| && init[i] == t && t.name == n
      && forall j :: i < j < |init| ==> init[j].name != n;
    assert tools[i] == t;
    forall j | i < j < |tools| ensures tools[j].name != n {
      if j < |init| { assert tools[j] == init[j]; } else { assert tools[j] == last; }
    }
  }

  /** `{tool.get_name(): tool for tool in tools}`: every tool's name is a key,
      and a name shared by several tools keeps the last of them. */
  function ToolMapOf(tools: seq<Tool>): (m: map<string, Tool>)
    ensures m.Keys == NameSet(tools)
    ensures forall n :: n in m ==> IsLastNamed(tools, n, m[n])
    decreases |tools|
  {
    if tools == [] then map[]
    else
      var init, last := tools[..|tools| - 1], tools[|tools| - 1];
      var m0 := ToolMapOf(init);
      assert tools == init + [last];
      NameSetSnoc(init, last);
      assert forall n :: n in m0 && n != last.name ==> IsLastNamed(tools, n, m0[n]) by {
        forall n | n in m0 && n != last.name ensures IsLastNamed(tools, n, m0[n]) {
          LastNamedSnoc(init, last, n, m0[n]);
        }
      }
      assert IsLastNamed(tools, last.name, last) by {
        assert tools[|tools| - 1] == last;
      }
      m0[last.name := last]
  }

  function NotFoundLead(name: string): string
  {
    "Tool '" + name + "' not found"
  }

  function NotFoundError(name: string, tools: seq<Tool>): string
  {
    NotFoundLead(name) + (", Available tools: " + ReprStrings(ToolNames(tools)))
  }

  function ExecutingErrorPrefix(name: string): string
  {
    "Error executing tool '" + name + "': "
  }

  /** `execute_tool_call` once the name-to-tool index is built: an unknown name,
      a tool that returns and a tool that raises each give one result, which
      always carries the call's correlation fields. */
  function CallResult(index: map<string, Tool>, tools: seq<Tool>, call: ToolCall): (r: ToolResult)
    ensures r.callId == call.callId && r.name == call.name && r.id == call.id
    ensures r.success <==>
      call.name in index && var out := index[call.name].execute(call.arguments);
      out.Returned? && out.value.errorCode == 0
    ensures call.name !in index ==>
      r.result == None && r.error == Some(NotFoundError(call.name, tools))
    ensures call.name in index && index[call.name].execute(call.arguments).Returned? ==>
      var x := index[call.name].execute(call.arguments).value;
      r.result == x.result && r.error == x.error
    ensures call.name in index && index[call.name].execute(call.arguments).Raised? ==>
      var fault := index[call.name].execute(call.arguments).fault;
      r.result == None && r.error == Some(ExecutingErrorPrefix(call.name) + fault)
  {
    if call.name !in index then
      ToolResult(
        callId := call.callId,
        name := call.name,
        success := false,
        error := Some(NotFoundError(call.name, tools)),
        id := call.id)
    else
      match index[call.name].execute(call.arguments)
      case Returned(x) =>
        ToolResult(
          name := call.name,
          success := x.errorCode == 0,
          result := x.result,
          error := x.error,
          callId := call.callId,
          id := call.id)
      case Raised(fault) =>
        ToolResult(
          name := call.name,
          success := false,
          error := Some(ExecutingErrorPrefix(call.name) + fault),
          callId := call.callId,
          id := call.id)
  }

  /** The error for an unknown tool names the requested tool and quotes
      every registered tool's name. */
  lemma UnknownToolReported(index: map<string, Tool>, tools: seq<Tool>, call: ToolCall, i: nat)
    requires call.name !in index
    requires i < |tools|
    ensures var r := CallResult(index, tools, call);
      && !r.success
      && r.error.Some?
      && IsPrefix(NotFoundLead(call.name), r.error.value)
      && Contains(r.error.value, Quote(tools[i].name))
  {
    var names := ToolNames(tools);
    var tail := ", Available tools: " + ReprStrings(names);
    ReprNamesElement(names, i);
    ContainsAfterPrefix(", Available tools: ", ReprStrings(names), Quote(names[i]));
    ContainsAfterPrefix(NotFoundLead(call.name), tail, Quote(names[i]));
    PrefixOfConcat(NotFoundLead(call.name), tail);
  }

  /** A tool that raises gives a failed result whose error starts with a
      fixed lead-in naming the tool, quoted, and ends with the fault. */
  lemma RaisedToolReported(index: map<string, Tool>, tools: seq<Tool>, call: ToolCall)
    requires call.name in index && index[call.name].execute(call.arguments).Raised?
    ensures var r := CallResult(index, tools, call);
      var fault := index[call.name].execute(call.arguments).fault;
      && !r.success
      && r.error.Some?
      && IsPrefix("Error executing tool ", r.error.value)
      && Contains(r.error.value, Quote(call.name))
      && r.error.value[|r.error.value| - |fault|..] == fault
  {
    var fault := index[call.name].execute(call.arguments).fault;
    var err := ExecutingErrorPrefix(call.name) + fault;
    assert err == "Error executing tool " + (Quote(call.name) + (": " + fault));
    PrefixOfConcat("Error executing tool ", Quote(call.name) + (": " + fault));
    assert IsOccurrence(Quote(call.name) + (": " + fault), Quote(call.name), 0);
    ContainsAfterPrefix("Error executing tool ", Quote(call.name) + (": " + fault), Quote(call.name));
  }

  /** Running one more call appends its result. */
  lemma BatchSnoc(index: map<string, Tool>, tools: seq<Tool>, calls: seq<ToolCall>, call: ToolCall)
    ensures ExecuteBatch(index, tools, calls + [call])
         == ExecuteBatch(index, tools, calls) + [CallResult(index, tools, call)]
  {
    BatchIsolation(index, tools, calls, [call]);
  }

  /** The results of a batch, position by position. */
  function ExecuteBatch(index: map<string, Tool>, tools: seq<Tool>, calls: seq<ToolCall>): (rs: seq<ToolResult>)
    ensures |rs| == |calls|
    ensures forall i :: 0 <= i < |calls| ==> rs[i] == CallResult(index, tools, calls[i])
    ensures forall i :: 0 <= i < |calls| ==>
      rs[i].callId == calls[i].callId && rs[i].name == calls[i].name && rs[i].id == calls[i].id
    decreases |calls|
  {
    if calls == [] then []
    else [CallResult(index, tools, calls[0])] + ExecuteBatch(index, tools, calls[1..])
  }

  /** A call's result does not depend on the other calls of its batch: the
      results of two batches run together are those of each batch alone. */
  lemma {:induction false} BatchIsolation(index: map<string, Tool>, tools: seq<Tool>, a: seq<ToolCall>, b: seq<ToolCall>)
    ensures ExecuteBatch(index, tools, a + b) == ExecuteBatch(index, tools, a) + ExecuteBatch(index, tools, b)
    decreases |a|
  {
    if a == [] {
      assert a + b == b;
    } else {
      assert (a + b)[1..] == a[1..] + b;
      BatchIsolation(index, tools, a[1..], b);
      var head := [CallResult(index, tools, a[0])];
      calc {
        ExecuteBatch(index, tools, a + b);
        head + ExecuteBatch(index, tools, a[1..] + b);
        head + (ExecuteBatch(index, tools, a[1..]) + ExecuteBatch(index, tools, b));
        { SeqAssoc(head, ExecuteBatch(index, tools, a[1..]), ExecuteBatch(index, tools, b)); }
        ExecuteBatch(index, tools, a) + ExecuteBatch(index, tools, b);
      }
    }
  }

  /** `ToolExecutor`: a fixed list of tools and the name-to-tool index,
      built on first use and kept from then on. */
  class ToolExecutor {
    var tools: seq<Tool>
    var toolMap: Option<map<string, Tool>>

    /** Once built, the index is the one the tool list gives. */
    ghost predicate Valid()
      reads this
    {
      toolMap.Some? ==> toolMap.value == ToolMapOf(tools)
    }

    constructor (tools: seq<Tool>)
      ensures Valid() && this.tools == tools && toolMap == None
    {
      this.tools := tools;
      this.toolMap := None;
    }

    /** `get_tools`: builds the index the first time and returns the cached
        one, unchanged, on every later call. */
    method GetTools() returns (m: map<string, Tool>)
      requires Valid()
      modifies this
      ensures Valid() && tools == old(tools)
      ensures toolMap == Some(m) && m == ToolMapOf(tools)
      ensures old(toolMap).Some? ==> toolMap == old(toolMap)
    {
      if toolMap.None? {
        var built: map<string, Tool> := map[];
        var i := 0;
        while i < |tools|
          invariant 0 <= i <= |tools|
          invariant built == ToolMapOf(tools[..i])
        {
          assert tools[..i + 1][..i] == tools[..i];
          built := built[tools[i].name := tools[i]];
          i := i + 1;
        }
        assert tools[..|tools|] == tools;
        toolMap := Some(built);
      }
      m := toolMap.value;
    }

    /** `execute_tool_call`: resolves the call against the index and never
        lets a tool's fault escape. */
    method ExecuteToolCall(call: ToolCall) returns (r: ToolResult)
      requires Valid()
      modifies this
      ensures Valid() && tools == old(tools) && toolMap == Some(ToolMapOf(tools))
      ensures r == CallResult(ToolMapOf(tools), tools, call)
    {
      var index := GetTools();
      r := CallResult(index, tools, call);
    }

    /** `sequential_execute`: runs the calls one after another, in order. */
    method SequentialExecute(calls: seq<ToolCall>) returns (rs: seq<ToolResult>)
      requires Valid()
      modifies this
      ensures Valid() && tools == old(tools)
      ensures |calls| == 0 ==> toolMap == old(toolMap)
      ensures |calls| > 0 ==> toolMap == Some(ToolMapOf(tools))
      ensures rs == ExecuteBatch(ToolMapOf(tools), tools, calls)
    {
      ghost var index := ToolMapOf(tools);
      rs := [];
      var i := 0;
      while i < |calls|
        invariant 0 <= i <= |calls|
        invariant Valid() && tools == old(tools)
        invariant i == 0 ==> toolMap == old(toolMap)
        invariant i > 0 ==> toolMap == Some(index)
        invariant rs == ExecuteBatch(index, tools, calls[..i])
      {
        var r := ExecuteToolCall(calls[i]);
        BatchSnoc(index, tools, calls[..i], calls[i]);
        assert calls[..i + 1] == calls[..i] + [calls[i]];
        rs := rs + [r];
        i := i + 1;
      }
      assert calls[..i] == calls;
    }

    /** `parallel_execute`: the calls may finish in any order, but the
        results are gathered in input order, each from the same index. */
    method ParallelExecute(calls: seq<ToolCall>) returns (rs: seq<ToolResult>)
      requires Valid()
      modifies this
      ensures Valid() && tools == old(tools)
      ensures |calls| == 0 ==> toolMap == old(toolMap)
      ensures |calls| > 0 ==> toolMap == Some(ToolMapOf(tools))
      ensures rs == ExecuteBatch(ToolMapOf(tools), tools, calls)
    {
      if |calls| == 0 {
        rs := [];
      } else {
        var index := GetTools();
        rs := ExecuteBatch(index, tools, calls);
      }
    }
  }
}
