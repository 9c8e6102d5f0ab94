/**
  Translation of a Claude answer to the OpenAI format: in one piece, and as a stream of chunks that
  a client puts together again.  JSON texts are opaque strings.
 */
module ClaudeStream {
  import opened Wrappers

  // ---- What Claude sends ----

  /** A content block; `input` is the JSON text of the input of a tool. */
  datatype Content = Content(kind: string, text: string, id: string, name: string, input: string)

  datatype Usage = Usage(inputTokens: int, outputTokens: int)

  datatype Response = Response(id: string, model: string, content: seq<Content>, stopReason: Option<string>, usage: Usage)

  datatype Delta = Delta(kind: string, text: string, partialJson: string, stopReason: Option<string>)

  datatype StreamResponse = StreamResponse(
    kind: string, message: Option<Response>, contentBlock: Option<Content>, delta: Option<Delta>, usage: Option<Usage>)

  // ---- What the client receives ----

  datatype Tool = Tool(id: string, kind: string, name: string, arguments: string)

  datatype Choice = Choice(content: Option<string>, toolCalls: seq<Tool>, finishReason: Option<string>)

  datatype Chunk = Chunk(id: string, model: string, choice: Choice)

  /** A complete answer, whichever way it came. */
  datatype View = View(text: string, tools: seq<Tool>, finish: string)

  function StopReason(reason: Option<string>): string {
    if reason.None? then ""
    else if reason.value == "end_turn" || reason.value == "stop_sequence" then "stop"
    else if reason.value == "max_tokens" then "length"
    else if reason.value == "tool_use" then "tool_calls"
    else reason.value
  }

  /** The four reasons that have other names in the OpenAI format; all others keep theirs. */
  lemma StopReasonsByName(reason: string)
    ensures StopReason(None) == ""
    ensures StopReason(Some("end_turn")) == "stop" && StopReason(Some("stop_sequence")) == "stop"
    ensures StopReason(Some("max_tokens")) == "length" && StopReason(Some("tool_use")) == "tool_calls"
    ensures reason !in ["end_turn", "stop_sequence", "max_tokens", "tool_use"] ==> StopReason(Some(reason)) == reason
  {
  }

  predicate IsTool(block: Content) {
    block.kind == "tool_use"
  }

  function ToolOf(block: Content, arguments: string): Tool {
    Tool(block.id, "function", block.name, arguments)
  }

  /** The tools of a complete answer. */
  function OneShotTools(content: seq<Content>): seq<Tool> {
    if content == [] then []
    else
      var before, last := OneShotTools(content[..|content| - 1]), content[|content| - 1];
      if IsTool(last) then before + [ToolOf(last, last.input)] else before
  }

  /** The id under which an answer is passed on. */
  function ChatId(id: string): string {
    "chatcmpl-" + id
  }

  method ResponseClaude2OpenAI(response: Response) returns (id: string, model: string, view: View)
    ensures view == OneShot(response)
    ensures id == "chatcmpl-" + response.id && model == response.model
  {
    var responseText := "";
    if |response.content| > 0 {
      responseText := response.content[0].text;
    }
    var tools: seq<Tool> := [];
    for i := 0 to |response.content|
      invariant tools == OneShotTools(response.content[..i])
    {
      var v := response.content[i];
      assert response.content[..i + 1][..i] == response.content[..i];
      if v.kind == "tool_use" {
        tools := tools + [Tool(v.id, "function", v.name, v.input)];
      }
    }
    assert response.content[..|response.content|] == response.content;
    id, model := "chatcmpl-" + response.id, response.model;
    view := View(responseText, tools, StopReason(response.stopReason));
  }

  function OneShot(response: Response): View {
    View(if |response.content| > 0 then response.content[0].text else "",
         OneShotTools(response.content), StopReason(response.stopReason))
  }

  /** The one-piece answer, part by part: the first text, every tool with its names and its input, and the reason. */
  lemma OneShotShows(response: Response, block: Content)
    ensures var view := OneShot(response);
            && view.text == (if response.content == [] then "" else response.content[0].text)
            && (response.content == [] ==> view.tools == [])
            && view.finish == StopReason(response.stopReason)
    ensures OneShot(response.(content := response.content + [block])).tools ==
            if block.kind == "tool_use" then OneShot(response).tools + [Tool(block.id, "function", block.name, block.input)]
            else OneShot(response).tools
  {
    assert (response.content + [block])[..|response.content|] == response.content;
  }

  // ---- The stream translator ----

  const NO_USAGE := Usage(0, 0)

  /** One event: the choice to send on, if any, and what it tells about the whole answer. */
  function StreamResponseClaude2OpenAI(event: StreamResponse): (Option<Choice>, Option<Response>) {
    if event.kind == "message_start" then (None, event.message)
    else
      var block := if event.kind == "content_block_start" then event.contentBlock else None;
      var delta := if event.kind == "content_block_delta" then event.delta else None;
      var text := if block.Some? then block.value.text else if delta.Some? then delta.value.text else "";
      var tools :=
        if block.Some? && block.value.kind == "tool_use" then [ToolOf(block.value, "")]
        else if delta.Some? && delta.value.kind == "input_json_delta" then [Tool("", "", "", delta.value.partialJson)]
        else [];
      var final := event.kind == "message_delta";
      var meta := if final && event.usage.Some? then Some(Response("", "", [], None, event.usage.value)) else None;
      var stopReason := if final && event.delta.Some? && event.delta.value.stopReason.Some?
                        then event.delta.value.stopReason.value else "";
      var finish := StopReason(Some(stopReason));
      (Some(Choice(if tools == [] then Some(text) else None, tools, if finish != "null" then Some(finish) else None)), meta)
  }

  /** What each kind of event is translated to, whatever else it carries. */
  lemma TranslationByKind(event: StreamResponse)
    ensures var (choice, meta) := StreamResponseClaude2OpenAI(event);
            if event.kind == "message_start" then choice == None && meta == event.message
            else if event.kind == "content_block_start" && event.contentBlock.Some? then
              var block := event.contentBlock.value;
              && meta == None
              && choice == Some(if block.kind == "tool_use" then Choice(None, [Tool(block.id, "function", block.name, "")], Some(""))
                                else Choice(Some(block.text), [], Some("")))
            else if event.kind == "content_block_delta" && event.delta.Some? then
              var delta := event.delta.value;
              && meta == None
              && choice == Some(if delta.kind == "input_json_delta" then Choice(None, [Tool("", "", "", delta.partialJson)], Some(""))
                                else Choice(Some(delta.text), [], Some("")))
            else if event.kind == "message_delta" then
              var reason := if event.delta.Some? then event.delta.value.stopReason else None;
              && meta == (if event.usage.Some? then Some(Response("", "", [], None, event.usage.value)) else None)
              && choice == Some(Choice(Some(""), [], if reason == Some("null") then None else Some(StopReason(reason))))
            else choice == Some(Choice(Some(""), [], Some(""))) && meta == None
  {
  }

  /** The variables of the loop; `lastToolCalls` are the tool calls of the last choice that had any. */
  datatype Progress = Progress(
    usage: Usage, model: string, id: string, lastToolCalls: seq<Tool>, sent: seq<Chunk>)

  const START := Progress(NO_USAGE, "", "", [], [])

  function Sum(a: Usage, b: Usage): Usage {
    Usage(a.inputTokens + b.inputTokens, a.outputTokens + b.outputTokens)
  }

  predicate LacksArguments(calls: seq<Tool>) {
    calls != [] && calls[|calls| - 1].arguments == ""
  }

  function WithBraces(calls: seq<Tool>): seq<Tool>
    requires calls != []
  {
    calls[|calls| - 1 := calls[|calls| - 1].(arguments := "{}")]
  }

  function Handled(p: Progress, event: StreamResponse): Progress {
    var (choice, meta) := StreamResponseClaude2OpenAI(event);
    var counted := if meta.Some? then p.(usage := Sum(p.usage, meta.value.usage)) else p;
    if meta.Some? && meta.value.id != "" then
      counted.(model := meta.value.model, id := ChatId(meta.value.id))
    else if choice.None? then counted
    else
      var mended := meta.Some? && LacksArguments(p.lastToolCalls);
      var calls := if mended then WithBraces(p.lastToolCalls) else choice.value.toolCalls;
      var sent := choice.value.(content := if mended then None else choice.value.content, toolCalls := calls);
      counted.(sent := p.sent + [Chunk(p.id, p.model, sent)],
               lastToolCalls := if calls != [] then calls else p.lastToolCalls)
  }

  /** A final event after a tool call that lacks arguments sends that call again, with braces; all others are sent as translated. */
  lemma FinalRepeatsCall(p: Progress, event: StreamResponse)
    ensures var (choice, sent, calls) := (StreamResponseClaude2OpenAI(event).0, Handled(p, event).sent, p.lastToolCalls);
            if event.kind == "message_start" then sent == p.sent
            else if event.kind == "message_delta" && event.usage.Some? && calls != [] && calls[|calls| - 1].arguments == "" then
              var last := calls[|calls| - 1];
              sent == p.sent + [Chunk(p.id, p.model, Choice(None, calls[..|calls| - 1] + [Tool(last.id, last.kind, last.name, "{}")],
                                                            choice.value.finishReason))]
            else sent == p.sent + [Chunk(p.id, p.model, choice.value)]
  {
    hide StopReason;
    var calls := p.lastToolCalls;
    if LacksArguments(calls) {
      assert WithBraces(calls) == calls[..|calls| - 1] + [calls[|calls| - 1].(arguments := "{}")];
    }
  }

  function HandledAll(p: Progress, events: seq<StreamResponse>): Progress
    decreases |events|
  {
    if events == [] then p else HandledAll(Handled(p, events[0]), events[1..])
  }

  /** The loop over the events of a response body; an event that could not be parsed is skipped. */
  method StreamHandler(lines: seq<Option<StreamResponse>>) returns (usage: Usage, sent: seq<Chunk>)
    ensures usage == HandledAll(START, Parsed(lines)).usage
    ensures sent == HandledAll(START, Parsed(lines)).sent
  {
    usage, sent := NO_USAGE, [];
    var modelName, id := "", "";
    var lastToolCalls: seq<Tool> := [];
    for i := 0 to |lines|
      invariant HandledAll(Progress(usage, modelName, id, lastToolCalls, sent), Parsed(lines[i..]))
                == HandledAll(START, Parsed(lines))
    {
      assert lines[i..][1..] == lines[i + 1..];
      if lines[i].None? {
        continue;
      }
      var (response, meta) := StreamResponseClaude2OpenAI(lines[i].value);
      if meta.Some? {
        usage := Sum(usage, meta.value.usage);
        if |meta.value.id| > 0 {
          modelName := meta.value.model;
          id := "chatcmpl-" + meta.value.id;
          continue;
        } else if |lastToolCalls| > 0 && response.Some? {
          if |lastToolCalls[|lastToolCalls| - 1].arguments| == 0 {
            lastToolCalls := lastToolCalls[|lastToolCalls| - 1 := lastToolCalls[|lastToolCalls| - 1].(arguments := "{}")];
            response := Some(response.value.(content := None, toolCalls := lastToolCalls));
          }
        }
      }
      if response.None? {
        continue;
      }
      if |response.value.toolCalls| > 0 {
        lastToolCalls := response.value.toolCalls;
      }
      sent := sent + [Chunk(id, modelName, response.value)];
    }
  }

  function Parsed(lines: seq<Option<StreamResponse>>): seq<StreamResponse> {
    if lines == [] then []
    else if lines[0].Some? then [lines[0].value] + Parsed(lines[1..]) else Parsed(lines[1..])
  }

  // ---- The client ----

  /** A call without an id, or with the id of the latest tool, carries more arguments of that tool. */
  function Merged(tools: seq<Tool>, call: Tool): seq<Tool> {
    if tools != [] && (call.id == "" || call.id == tools[|tools| - 1].id) then
      var last := tools[|tools| - 1];
      tools[|tools| - 1 := last.(arguments := last.arguments + call.arguments)]
    else tools + [call]
  }

  function MergedAll(tools: seq<Tool>, calls: seq<Tool>): seq<Tool>
    decreases |calls|
  {
    if calls == [] then tools else MergedAll(Merged(tools, calls[0]), calls[1..])
  }

  function Received(view: View, choice: Choice): View {
    View(view.text + (if choice.content.Some? then choice.content.value else ""),
         MergedAll(view.tools, choice.toolCalls),
         if choice.finishReason.Some? && choice.finishReason.value != "" then choice.finishReason.value else view.finish)
  }

  function ClientView(sent: seq<Chunk>): View {
    if sent == [] then View("", [], "")
    else Received(ClientView(sent[..|sent| - 1]), sent[|sent| - 1].choice)
  }

  // ---- An answer cut into events ----

  function Concat(fragments: seq<string>): string {
    if fragments == [] then "" else Concat(fragments[..|fragments| - 1]) + fragments[|fragments| - 1]
  }

  function StartEvent(block: Content): StreamResponse {
    StreamResponse("content_block_start", None, Some(block.(text := "")), None, None)
  }

  function DeltaEvent(block: Content, fragment: string): StreamResponse {
    var delta := if IsTool(block) then Delta("input_json_delta", "", fragment, None)
                 else Delta("text_delta", fragment, "", None);
    StreamResponse("content_block_delta", None, None, Some(delta), None)
  }

  function DeltaEvents(block: Content, fragments: seq<string>): seq<StreamResponse> {
    if fragments == [] then []
    else DeltaEvents(block, fragments[..|fragments| - 1]) + [DeltaEvent(block, fragments[|fragments| - 1])]
  }

  function BlockEvents(content: seq<Content>, fragments: seq<seq<string>>): seq<StreamResponse>
    requires |fragments| == |content|
  {
    if content == [] then []
    else
      var n := |content| - 1;
      BlockEvents(content[..n], fragments[..n]) + [StartEvent(content[n])] + DeltaEvents(content[n], fragments[n])
  }

  function StartOfMessage(response: Response, first: Usage): StreamResponse {
    StreamResponse("message_start", Some(Response(response.id, response.model, [], None, first)), None, None, None)
  }

  function EndEvent(response: Response, final: Usage): StreamResponse {
    StreamResponse("message_delta", None, None, Some(Delta("", "", "", response.stopReason)), Some(final))
  }

  /** The events of an answer; the usage at the start and the one at the end need not agree. */
  function Events(response: Response, fragments: seq<seq<string>>, first: Usage, final: Usage): seq<StreamResponse>
    requires |fragments| == |response.content|
  {
    [StartOfMessage(response, first)] + BlockEvents(response.content, fragments) + [EndEvent(response, final)]
  }

  // ---- What the stream adds up to ----

  function StreamText(content: seq<Content>, fragments: seq<seq<string>>): string
    requires |fragments| == |content|
  {
    if content == [] then ""
    else
      var n := |content| - 1;
      var before := StreamText(content[..n], fragments[..n]);
      if IsTool(content[n]) then before else before + Concat(fragments[n])
  }

  function StreamTools(content: seq<Content>, fragments: seq<seq<string>>): seq<Tool>
    requires |fragments| == |content|
  {
    if content == [] then []
    else
      var n := |content| - 1;
      var before := StreamTools(content[..n], fragments[..n]);
      if IsTool(content[n]) then before + [ToolOf(content[n], Concat(fragments[n]))] else before
  }

  /** The last tool call that was sent before the answer ends. */
  function LastCalls(content: seq<Content>, fragments: seq<seq<string>>): seq<Tool>
    requires |fragments| == |content|
  {
    if content == [] then []
    else
      var n := |content| - 1;
      if !IsTool(content[n]) then LastCalls(content[..n], fragments[..n])
      else if fragments[n] == [] then [ToolOf(content[n], "")]
      else [Tool("", "", "", fragments[n][|fragments[n]| - 1])]
  }

  /** Tools have ids, and no tool has the id of the one before it. */
  ghost predicate WellNamed(content: seq<Content>) {
    content != [] ==>
      var n := |content| - 1;
      && WellNamed(content[..n])
      && (IsTool(content[n]) ==>
            && content[n].id != ""
            && var tools := OneShotTools(content[..n]);
               tools != [] ==> tools[|tools| - 1].id != content[n].id)
  }

  /** Tools are well named when all have ids and no two the same. */
  lemma {:induction false} DistinctIdsWellNamed(content: seq<Content>)
    requires forall i :: 0 <= i < |content| && content[i].kind == "tool_use" ==> content[i].id != ""
    requires forall i, j :: 0 <= i < j < |content| && content[i].kind == content[j].kind == "tool_use" ==> content[i].id != content[j].id
    ensures WellNamed(content)
  {
    if content != [] {
      var n := |content| - 1;
      DistinctIdsWellNamed(content[..n]);
      ToolsAreFromContent(content[..n]);
    }
  }

  lemma {:induction false} ToolsAreFromContent(content: seq<Content>)
    ensures forall tool :: tool in OneShotTools(content) ==>
              exists i :: 0 <= i < |content| && content[i].kind == "tool_use" && content[i].id == tool.id
  {
    if content != [] {
      var n := |content| - 1;
      ToolsAreFromContent(content[..n]);
      forall tool | tool in OneShotTools(content)
        ensures exists i :: 0 <= i < |content| && content[i].kind == "tool_use" && content[i].id == tool.id
      {
        if tool in OneShotTools(content[..n]) {
          var i :| 0 <= i < n && content[..n][i].kind == "tool_use" && content[..n][i].id == tool.id;
          assert content[i].kind == "tool_use" && content[i].id == tool.id;
        } else {
          assert content[n].kind == "tool_use" && content[n].id == tool.id;
        }
      }
    }
  }

  /** `p` after something that shows the client `view`, with `calls` the last tool calls. */
  ghost predicate Reached(from: Progress, p: Progress, view: View, calls: seq<Tool>) {
    p.usage == from.usage && p.id == from.id && p.model == from.model
    && ClientView(p.sent) == view && p.lastToolCalls == calls
  }

  lemma {:induction false} HandledConcat(p: Progress, a: seq<StreamResponse>, b: seq<StreamResponse>)
    ensures HandledAll(p, a + b) == HandledAll(HandledAll(p, a), b)
    decreases |a|
  {
    if a == [] {
      assert a + b == b;
    } else {
      assert (a + b)[1..] == a[1..] + b;
      HandledConcat(Handled(p, a[0]), a[1..], b);
    }
  }

  lemma HandledOne(p: Progress, event: StreamResponse)
    ensures HandledAll(p, [event]) == Handled(p, event)
  {
    assert HandledAll(Handled(p, event), [event][1..]) == Handled(p, event);
  }

  lemma SentOneMore(p: Progress, chunk: Chunk)
    ensures ClientView(p.sent + [chunk]) == Received(ClientView(p.sent), chunk.choice)
  {
    assert (p.sent + [chunk])[..|p.sent|] == p.sent;
  }

  lemma MergedOne(tools: seq<Tool>, call: Tool)
    ensures MergedAll(tools, [call]) == Merged(tools, call)
  {
    assert MergedAll(Merged(tools, call), [call][1..]) == Merged(tools, call);
  }

  /** Arguments appended to the latest tool. */
  function Extended(tools: seq<Tool>, arguments: string): seq<Tool>
    requires tools != []
  {
    var last := tools[|tools| - 1];
    tools[|tools| - 1 := last.(arguments := last.arguments + arguments)]
  }

  /** An event without a meta adds a choice to what was sent. */
  lemma ChoiceHandled(p: Progress, event: StreamResponse, choice: Choice)
    requires StreamResponseClaude2OpenAI(event) == (Some(choice), None)
    ensures var view := Received(ClientView(p.sent), choice);
            Reached(p, Handled(p, event), view, if choice.toolCalls != [] then choice.toolCalls else p.lastToolCalls)
  {
    hide StreamResponseClaude2OpenAI, Received, ClientView;
    SentOneMore(p, Chunk(p.id, p.model, choice));
  }

  /** A choice of text only, and a choice of one tool call only. */
  lemma TextReceived(view: View, text: string)
    ensures Received(view, Choice(Some(text), [], Some(""))) == view.(text := view.text + text)
  {
  }

  lemma CallReceived(view: View, call: Tool)
    ensures Received(view, Choice(None, [call], Some(""))) == view.(tools := Merged(view.tools, call))
  {
    MergedOne(view.tools, call);
    assert view.text + "" == view.text;
  }

  lemma DeltaTranslated(block: Content, fragment: string)
    ensures StreamResponseClaude2OpenAI(DeltaEvent(block, fragment))
            == (Some(if IsTool(block) then Choice(None, [Tool("", "", "", fragment)], Some(""))
                     else Choice(Some(fragment), [], Some(""))), None)
  {
  }

  lemma DeltaHandled(p: Progress, block: Content, fragment: string)
    requires IsTool(block) ==> ClientView(p.sent).tools != []
    ensures var view := ClientView(p.sent);
            Reached(p, Handled(p, DeltaEvent(block, fragment)),
                    if IsTool(block) then view.(tools := Extended(view.tools, fragment))
                    else view.(text := view.text + fragment),
                    if IsTool(block) then [Tool("", "", "", fragment)] else p.lastToolCalls)
  {
    hide StreamResponseClaude2OpenAI, ClientView, Received, Handled, DeltaEvent, IsTool;
    DeltaTranslated(block, fragment);
    if IsTool(block) {
      ChoiceHandled(p, DeltaEvent(block, fragment), Choice(None, [Tool("", "", "", fragment)], Some("")));
      CallReceived(ClientView(p.sent), Tool("", "", "", fragment));
    } else {
      ChoiceHandled(p, DeltaEvent(block, fragment), Choice(Some(fragment), [], Some("")));
      TextReceived(ClientView(p.sent), fragment);
    }
  }

  lemma {:induction false} DeltasHandled(p: Progress, block: Content, fragments: seq<string>)
    requires IsTool(block) ==> ClientView(p.sent).tools != []
    ensures var view := ClientView(p.sent);
            Reached(p, HandledAll(p, DeltaEvents(block, fragments)),
                    if IsTool(block) then view.(tools := Extended(view.tools, Concat(fragments)))
                    else view.(text := view.text + Concat(fragments)),
                    if IsTool(block) && fragments != [] then [Tool("", "", "", fragments[|fragments| - 1])]
                    else p.lastToolCalls)
  {
    if fragments == [] {
      var view := ClientView(p.sent);
      assert view.text + "" == view.text;
      if IsTool(block) {
        var last := view.tools[|view.tools| - 1];
        assert last.arguments + "" == last.arguments;
        assert Extended(view.tools, "") == view.tools;
      }
    } else {
      var n := |fragments| - 1;
      var q := HandledAll(p, DeltaEvents(block, fragments[..n]));
      DeltasHandled(p, block, fragments[..n]);
      HandledConcat(p, DeltaEvents(block, fragments[..n]), [DeltaEvent(block, fragments[n])]);
      HandledOne(q, DeltaEvent(block, fragments[n]));
      DeltaHandled(q, block, fragments[n]);
      AppendsAssociate(ClientView(p.sent), Concat(fragments[..n]), fragments[n]);
    }
  }

  lemma AppendsAssociate(view: View, a: string, b: string)
    ensures (view.text + a) + b == view.text + (a + b)
    ensures view.tools != [] ==> Extended(Extended(view.tools, a), b) == Extended(view.tools, a + b)
  {
    if view.tools != [] {
      var arguments := view.tools[|view.tools| - 1].arguments;
      assert (arguments + a) + b == arguments + (a + b);
    }
  }

  lemma StartTranslated(block: Content)
    ensures StreamResponseClaude2OpenAI(StartEvent(block))
            == (Some(if IsTool(block) then Choice(None, [ToolOf(block, "")], Some(""))
                     else Choice(Some(""), [], Some(""))), None)
  {
  }

  lemma StartHandled(p: Progress, block: Content)
    requires IsTool(block) ==> block.id != ""
    requires var tools := ClientView(p.sent).tools; IsTool(block) && tools != [] ==> tools[|tools| - 1].id != block.id
    ensures var view := ClientView(p.sent);
            Reached(p, Handled(p, StartEvent(block)),
                    if IsTool(block) then view.(tools := view.tools + [ToolOf(block, "")]) else view,
                    if IsTool(block) then [ToolOf(block, "")] else p.lastToolCalls)
  {
    hide StreamResponseClaude2OpenAI, ClientView, Received, Handled, StartEvent, IsTool;
    StartTranslated(block);
    if IsTool(block) {
      ChoiceHandled(p, StartEvent(block), Choice(None, [ToolOf(block, "")], Some("")));
      CallReceived(ClientView(p.sent), ToolOf(block, ""));
    } else {
      ChoiceHandled(p, StartEvent(block), Choice(Some(""), [], Some("")));
      TextReceived(ClientView(p.sent), "");
      NothingAppended(ClientView(p.sent).text);
    }
  }

  /** The streamed tools are the tools of the one-piece answer, but for their arguments. */
  lemma {:induction false} SameNames(content: seq<Content>, fragments: seq<seq<string>>)
    requires |fragments| == |content|
    ensures var (streamed, whole) := (StreamTools(content, fragments), OneShotTools(content));
            && |streamed| == |whole|
            && forall i :: 0 <= i < |whole| ==> streamed[i] == whole[i].(arguments := streamed[i].arguments)
  {
    if content != [] {
      SameNames(content[..|content| - 1], fragments[..|content| - 1]);
    }
  }

  /** The tool of the last block is not taken for a continuation of the one before it. */
  lemma LastToolIsNew(content: seq<Content>, fragments: seq<seq<string>>)
    requires |fragments| == |content| && content != [] && WellNamed(content) && IsTool(content[|content| - 1])
    ensures content[|content| - 1].id != ""
    ensures var tools := StreamTools(content[..|content| - 1], fragments[..|content| - 1]);
            tools != [] ==> tools[|tools| - 1].id != content[|content| - 1].id
  {
    SameNames(content[..|content| - 1], fragments[..|content| - 1]);
  }

  lemma {:induction false} BlocksHandled(p: Progress, content: seq<Content>, fragments: seq<seq<string>>)
    requires |fragments| == |content| && WellNamed(content)
    requires p.sent == [] && p.lastToolCalls == []
    ensures Reached(p, HandledAll(p, BlockEvents(content, fragments)),
                    View(StreamText(content, fragments), StreamTools(content, fragments), ""),
                    LastCalls(content, fragments))
  {
    hide Handled, HandledAll, StartEvent, DeltaEvents, WellNamed, ClientView, BlockEvents, Concat, IsTool, ToolOf;
    hide StreamText, StreamTools, LastCalls;
    if content == [] {
      NoBlocks(p);
    } else {
      var n := |content| - 1;
      var before := BlockEvents(content[..n], fragments[..n]);
      var block := [StartEvent(content[n])] + DeltaEvents(content[n], fragments[n]);
      WellNamedBefore(content);
      BlocksHandled(p, content[..n], fragments[..n]);
      if IsTool(content[n]) {
        LastToolIsNew(content, fragments);
      }
      OneBlockMore(content, fragments);
      BlockHandled(HandledAll(p, before), content[n], fragments[n]);
      HandledConcat(p, before, block);
    }
  }

  lemma NoBlocks(p: Progress)
    requires p.sent == [] && p.lastToolCalls == []
    ensures Reached(p, HandledAll(p, BlockEvents([], [])), View(StreamText([], []), StreamTools([], []), ""), LastCalls([], []))
  {
  }

  lemma WellNamedBefore(content: seq<Content>)
    requires WellNamed(content) && content != []
    ensures WellNamed(content[..|content| - 1])
  {
  }

  lemma OneBlockMore(content: seq<Content>, fragments: seq<seq<string>>)
    requires |fragments| == |content| && content != []
    ensures var n := |content| - 1;
            BlockEvents(content, fragments)
            == BlockEvents(content[..n], fragments[..n]) + ([StartEvent(content[n])] + DeltaEvents(content[n], fragments[n]))
    ensures var n := |content| - 1;
            var (text, tools) := (StreamText(content[..n], fragments[..n]), StreamTools(content[..n], fragments[..n]));
            && StreamText(content, fragments) == (if IsTool(content[n]) then text else text + Concat(fragments[n]))
            && StreamTools(content, fragments)
               == (if IsTool(content[n]) then tools + [ToolOf(content[n], Concat(fragments[n]))] else tools)
            && LastCalls(content, fragments)
               == if !IsTool(content[n]) then LastCalls(content[..n], fragments[..n])
                  else if fragments[n] == [] then [ToolOf(content[n], "")]
                  else [Tool("", "", "", fragments[n][|fragments[n]| - 1])]
  {
  }

  lemma BlockHandled(p: Progress, block: Content, fragments: seq<string>)
    requires IsTool(block) ==> block.id != ""
    requires var tools := ClientView(p.sent).tools; IsTool(block) && tools != [] ==> tools[|tools| - 1].id != block.id
    ensures var view := ClientView(p.sent);
            Reached(p, HandledAll(p, [StartEvent(block)] + DeltaEvents(block, fragments)),
                    if IsTool(block) then view.(tools := view.tools + [ToolOf(block, Concat(fragments))])
                    else view.(text := view.text + Concat(fragments)),
                    if !IsTool(block) then p.lastToolCalls
                    else if fragments == [] then [ToolOf(block, "")]
                    else [Tool("", "", "", fragments[|fragments| - 1])])
  {
    hide Handled, HandledAll, StartEvent, DeltaEvents, ClientView, Concat, IsTool, ToolOf, Extended;
    var q := Handled(p, StartEvent(block));
    StartHandled(p, block);
    HandledConcat(p, [StartEvent(block)], DeltaEvents(block, fragments));
    HandledOne(p, StartEvent(block));
    DeltasHandled(q, block, fragments);
    if IsTool(block) {
      NewToolExtended(ClientView(p.sent).tools, block, Concat(fragments));
    }
  }

  lemma NewToolExtended(tools: seq<Tool>, block: Content, arguments: string)
    ensures Extended(tools + [ToolOf(block, "")], arguments) == tools + [ToolOf(block, arguments)]
  {
    assert "" + arguments == arguments;
  }

  /** The tools after the end of the answer, which may supply the missing arguments of the last one. */
  function Mended(tools: seq<Tool>, calls: seq<Tool>): seq<Tool> {
    if tools != [] && LacksArguments(calls) then Extended(tools, "{}") else tools
  }

  lemma EndTranslated(response: Response, final: Usage)
    ensures var reason := StopReason(response.stopReason);
            StreamResponseClaude2OpenAI(EndEvent(response, final))
            == (Some(Choice(Some(""), [], if reason != "null" then Some(reason) else None)),
                Some(Response("", "", [], None, final)))
  {
  }

  lemma EndHandled(p: Progress, response: Response, final: Usage)
    requires var tools := ClientView(p.sent).tools;
             p.lastToolCalls == [] ||
             (|p.lastToolCalls| == 1 && tools != [] && p.lastToolCalls[0].id in ["", tools[|tools| - 1].id])
    ensures var (view, q) := (ClientView(p.sent), Handled(p, EndEvent(response, final)));
            && q.usage == Sum(p.usage, final)
            && ClientView(q.sent).text == view.text
            && ClientView(q.sent).tools == Mended(view.tools, p.lastToolCalls)
            && ClientView(q.sent).finish ==
               if StopReason(response.stopReason) in ["", "null"] then view.finish else StopReason(response.stopReason)
  {
    hide StreamResponseClaude2OpenAI, StopReason, EndEvent;
    EndTranslated(response, final);
    var q := Handled(p, EndEvent(response, final));
    var view := ClientView(p.sent);
    SentOneMore(p, q.sent[|q.sent| - 1]);
    hide ClientView;
    assert view.text + "" == view.text;
    if LacksArguments(p.lastToolCalls) {
      var call := p.lastToolCalls[0].(arguments := "{}");
      assert WithBraces(p.lastToolCalls) == [call];
      MergedOne(view.tools, call);
    }
  }

  lemma {:induction false} LastCallsNameLastTool(content: seq<Content>, fragments: seq<seq<string>>)
    requires |fragments| == |content|
    ensures var (calls, tools) := (LastCalls(content, fragments), StreamTools(content, fragments));
            && (calls == [] <==> tools == [])
            && (calls != [] ==> |calls| == 1 && calls[0].id in ["", tools[|tools| - 1].id])
  {
    if content != [] {
      LastCallsNameLastTool(content[..|content| - 1], fragments[..|content| - 1]);
    }
  }

  lemma HandledParts(p: Progress, first: StreamResponse, middle: seq<StreamResponse>, last: StreamResponse)
    ensures HandledAll(p, [first] + middle + [last]) == Handled(HandledAll(Handled(p, first), middle), last)
  {
    hide Handled;
    HandledConcat(p, [first] + middle, [last]);
    HandledConcat(p, [first], middle);
    HandledOne(p, first);
    HandledOne(HandledAll(Handled(p, first), middle), last);
  }

  lemma StartOfMessageHandled(response: Response, first: Usage)
    requires response.id != ""
    ensures Handled(START, StartOfMessage(response, first)) == Progress(first, response.model, ChatId(response.id), [], [])
  {
  }

  /** What a client sees of a whole stream, and the usage that is reported for it. */
  lemma StreamAddsUp(response: Response, fragments: seq<seq<string>>, first: Usage, final: Usage)
    requires |fragments| == |response.content| && response.id != "" && WellNamed(response.content)
    ensures var (p, reason) := (HandledAll(START, Events(response, fragments, first, final)), StopReason(response.stopReason));
            && p.usage == Usage(first.inputTokens + final.inputTokens, first.outputTokens + final.outputTokens)
            && ClientView(p.sent) ==
               View(StreamText(response.content, fragments),
                    Mended(StreamTools(response.content, fragments), LastCalls(response.content, fragments)),
                    if reason == "null" then "" else reason)
  {
    hide Handled, HandledAll, StopReason, BlockEvents, StreamText, StreamTools, LastCalls, ClientView, Mended, WellNamed;
    var blocks := BlockEvents(response.content, fragments);
    HandledParts(START, StartOfMessage(response, first), blocks, EndEvent(response, final));
    StartOfMessageHandled(response, first);
    var p := Handled(START, StartOfMessage(response, first));
    BlocksHandled(p, response.content, fragments);
    LastCallsNameLastTool(response.content, fragments);
    EndHandled(HandledAll(p, blocks), response, final);
  }

  // ---- When both ways agree ----

  /**
    The fragments of a block add up to its text or to its input; an empty input may come with no
    fragments, or only empty ones.
   */
  ghost predicate Fragmented(block: Content, fragments: seq<string>) {
    if IsTool(block) then
      && block.text == "" && block.input != ""
      && (Concat(fragments) == block.input || (block.input == "{}" && Concat(fragments) == ""))
    else Concat(fragments) == block.text
  }

  ghost predicate AllFragmented(content: seq<Content>, fragments: seq<seq<string>>) {
    |fragments| == |content| && forall i :: 0 <= i < |content| ==> Fragmented(content[i], fragments[i])
  }

  /** Every answer can be sent with each block in one piece. */
  lemma OnePieceFragmented(content: seq<Content>)
    requires forall i :: 0 <= i < |content| && content[i].kind == "tool_use" ==> content[i].text == "" && content[i].input != ""
    ensures AllFragmented(content, OnePieces(content))
  {
    forall i | 0 <= i < |content| ensures Fragmented(content[i], OnePieces(content)[i]) {
      var piece := if content[i].kind == "tool_use" then content[i].input else content[i].text;
      assert OnePieces(content)[i] == [piece] && [piece][..0] == [];
      NothingAppended(piece);
      assert Concat([piece]) == "" + piece;
    }
  }

  function OnePieces(content: seq<Content>): seq<seq<string>> {
    seq(|content|, i requires 0 <= i < |content| => [if content[i].kind == "tool_use" then content[i].input else content[i].text])
  }

  /** Every tool has sent some of its arguments. */
  ghost predicate AllFilled(content: seq<Content>, fragments: seq<seq<string>>)
    requires |fragments| == |content|
  {
    forall i :: 0 <= i < |content| && IsTool(content[i]) ==> Concat(fragments[i]) != ""
  }

  predicate EndsEmpty(fragments: seq<string>) {
    fragments == [] || fragments[|fragments| - 1] == ""
  }

  /**
    Only the last tool may have sent no arguments, and if it has sent some, its last fragment is
    not empty.
   */
  ghost predicate ArgumentsComplete(content: seq<Content>, fragments: seq<seq<string>>)
    requires |fragments| == |content|
  {
    content != [] ==>
      var n := |content| - 1;
      if !IsTool(content[n]) then ArgumentsComplete(content[..n], fragments[..n])
      else AllFilled(content[..n], fragments[..n]) && (EndsEmpty(fragments[n]) ==> Concat(fragments[n]) == "")
  }

  /** No block but the first has text. */
  ghost predicate TextFirst(content: seq<Content>) {
    forall i :: 1 <= i < |content| && !IsTool(content[i]) ==> content[i].text == ""
  }

  lemma {:induction false} FilledToolsAgree(content: seq<Content>, fragments: seq<seq<string>>)
    requires AllFragmented(content, fragments)
    ensures StreamTools(content, fragments) == OneShotTools(content) <==> AllFilled(content, fragments)
  {
    if content != [] {
      var n := |content| - 1;
      FilledToolsAgree(content[..n], fragments[..n]);
      SameNames(content[..n], fragments[..n]);
      assert Fragmented(content[n], fragments[n]);
      if IsTool(content[n]) {
        var streamed, whole := StreamTools(content[..n], fragments[..n]), OneShotTools(content[..n]);
        SnocAgrees(streamed, whole, ToolOf(content[n], Concat(fragments[n])), ToolOf(content[n], content[n].input));
      }
      AllFilledNext(content, fragments);
    }
  }

  lemma SnocAgrees(a: seq<Tool>, b: seq<Tool>, x: Tool, y: Tool)
    requires |a| == |b|
    ensures a + [x] == b + [y] <==> a == b && x == y
  {
    assert (a + [x])[..|a|] == a && (b + [y])[..|b|] == b;
    assert (a + [x])[|a|] == x && (b + [y])[|b|] == y;
  }

  lemma AllFilledNext(content: seq<Content>, fragments: seq<seq<string>>)
    requires |fragments| == |content| && content != []
    ensures var n := |content| - 1;
            AllFilled(content, fragments) <==>
            AllFilled(content[..n], fragments[..n]) && (IsTool(content[n]) ==> Concat(fragments[n]) != "")
  {
    var n := |content| - 1;
    if AllFilled(content[..n], fragments[..n]) {
      forall i | 0 <= i < n && IsTool(content[i]) ensures Concat(fragments[i]) != "" {
        assert IsTool(content[..n][i]);
      }
    }
  }

  lemma {:induction false} ToolsAgreeIff(content: seq<Content>, fragments: seq<seq<string>>)
    requires AllFragmented(content, fragments)
    ensures Mended(StreamTools(content, fragments), LastCalls(content, fragments)) == OneShotTools(content)
            <==> ArgumentsComplete(content, fragments)
  {
    if content != [] {
      var n := |content| - 1;
      var before, wholeBefore := StreamTools(content[..n], fragments[..n]), OneShotTools(content[..n]);
      if !IsTool(content[n]) {
        ToolsAgreeIff(content[..n], fragments[..n]);
      } else {
        var arguments := Concat(fragments[n]);
        var mended := if EndsEmpty(fragments[n]) then arguments + "{}" else arguments;
        assert Mended(before + [ToolOf(content[n], arguments)], LastCalls(content, fragments))
               == before + [ToolOf(content[n], mended)];
        SameNames(content[..n], fragments[..n]);
        SnocAgrees(before, wholeBefore, ToolOf(content[n], mended), ToolOf(content[n], content[n].input));
        FilledToolsAgree(content[..n], fragments[..n]);
        assert Fragmented(content[n], fragments[n]);
        MendingAgreesIff(content[n], fragments[n]);
      }
    }
  }

  /** Braces are appended rightly exactly when nothing was sent. */
  lemma MendingAgreesIff(block: Content, fragments: seq<string>)
    requires IsTool(block) && Fragmented(block, fragments)
    ensures (if EndsEmpty(fragments) then Concat(fragments) + "{}" else Concat(fragments)) == block.input
            <==> (EndsEmpty(fragments) ==> Concat(fragments) == "")
  {
    var arguments := Concat(fragments);
    assert "" + "{}" == "{}";
    if arguments != "" {
      assert |arguments + "{}"| != |arguments|;
    }
    if !EndsEmpty(fragments) {
      assert |arguments| >= |fragments[|fragments| - 1]| > 0;
    }
  }

  /** The text a stream adds to that of the first block. */
  function LaterText(content: seq<Content>, fragments: seq<seq<string>>): string
    requires |fragments| == |content|
  {
    if |content| <= 1 then ""
    else
      var n := |content| - 1;
      LaterText(content[..n], fragments[..n]) + OwnText(content[n], fragments[n])
  }

  /** The text that one block adds. */
  function OwnText(block: Content, fragments: seq<string>): string {
    if IsTool(block) then "" else Concat(fragments)
  }

  lemma StreamTextNext(content: seq<Content>, fragments: seq<seq<string>>)
    requires |fragments| == |content| && content != []
    ensures var n := |content| - 1;
            StreamText(content, fragments) == StreamText(content[..n], fragments[..n]) + OwnText(content[n], fragments[n])
  {
    var n := |content| - 1;
    NothingAppended(StreamText(content[..n], fragments[..n]));
    hide Concat, IsTool;
  }

  lemma NothingAppended(s: string)
    ensures s + "" == s && "" + s == s
  {
  }

  lemma Reassociated(a: string, b: string, c: string)
    ensures (a + b) + c == a + (b + c)
  {
  }

  lemma FirstText(content: seq<Content>, fragments: seq<seq<string>>)
    requires AllFragmented(content, fragments) && |content| == 1
    ensures StreamText(content, fragments) == content[0].text
  {
    StreamTextNext(content, fragments);
    assert Fragmented(content[0], fragments[0]);
    assert content[..0] == [];
    NothingAppended(OwnText(content[0], fragments[0]));
    hide Concat;
  }

  lemma {:induction false} TextSplits(content: seq<Content>, fragments: seq<seq<string>>)
    requires AllFragmented(content, fragments) && content != []
    ensures StreamText(content, fragments) == content[0].text + LaterText(content, fragments)
  {
    hide StreamText, Fragmented, OwnText;
    var n := |content| - 1;
    if n == 0 {
      FirstText(content, fragments);
      NothingAppended(content[0].text);
    } else {
      TextSplits(content[..n], fragments[..n]);
      StreamTextNext(content, fragments);
      Reassociated(content[0].text, LaterText(content[..n], fragments[..n]), OwnText(content[n], fragments[n]));
      LaterTextNext(content, fragments);
    }
  }

  lemma LaterTextNext(content: seq<Content>, fragments: seq<seq<string>>)
    requires |fragments| == |content| > 1
    ensures var n := |content| - 1;
            LaterText(content, fragments) == LaterText(content[..n], fragments[..n]) + OwnText(content[n], fragments[n])
  {
  }

  lemma {:induction false} LaterTextEmptyIff(content: seq<Content>, fragments: seq<seq<string>>)
    requires AllFragmented(content, fragments) && content != []
    ensures LaterText(content, fragments) == "" <==> TextFirst(content)
  {
    if |content| > 1 {
      var n := |content| - 1;
      assert Fragmented(content[n], fragments[n]);
      LaterTextEmptyIff(content[..n], fragments[..n]);
      TextFirstNext(content);
      hide TextFirst;
    }
  }

  lemma TextFirstNext(content: seq<Content>)
    requires |content| >= 2
    ensures var n := |content| - 1;
            TextFirst(content) <==> TextFirst(content[..n]) && (!IsTool(content[n]) ==> content[n].text == "")
  {
    var n := |content| - 1;
    if TextFirst(content[..n]) {
      forall i | 1 <= i < n && !IsTool(content[i]) ensures content[i].text == "" {
        assert !IsTool(content[..n][i]);
      }
    }
  }

  /**
    The client that adds up the stream sees the answer that the one-piece translation gives exactly
    when text comes first, no tool but the last is without arguments, no arguments end with an empty
    fragment, and the finish reason is not the word null.
   */
  lemma StreamAgreesIff(response: Response, fragments: seq<seq<string>>, first: Usage, final: Usage)
    requires AllFragmented(response.content, fragments) && response.id != "" && WellNamed(response.content)
    ensures ClientView(HandledAll(START, Events(response, fragments, first, final)).sent) == OneShot(response)
            <==> && TextFirst(response.content)
                 && ArgumentsComplete(response.content, fragments)
                 && StopReason(response.stopReason) != "null"
  {
    var content := response.content;
    StreamAddsUp(response, fragments, first, final);
    ToolsAgreeIff(content, fragments);
    if content != [] {
      TextSplits(content, fragments);
      LaterTextEmptyIff(content, fragments);
      assert content[0].text + "" == content[0].text;
      assert |content[0].text + LaterText(content, fragments)| == |content[0].text| + |LaterText(content, fragments)|;
    }
  }

  // ---- Whose answer the chunks are ----

  /** An event that names an answer. */
  predicate Names(event: StreamResponse) {
    event.kind == "message_start" && event.message.Some? && event.message.value.id != ""
  }

  ghost predicate AllNamed(sent: seq<Chunk>, id: string, model: string) {
    forall chunk :: chunk in sent ==> chunk.id == id && chunk.model == model
  }

  lemma NameStays(p: Progress, event: StreamResponse)
    requires !Names(event) && AllNamed(p.sent, p.id, p.model)
    ensures var q := Handled(p, event);
            q.id == p.id && q.model == p.model && AllNamed(q.sent, p.id, p.model)
  {
    hide StopReason;
  }

  lemma {:induction false} NamesStay(p: Progress, events: seq<StreamResponse>)
    requires AllNamed(p.sent, p.id, p.model) && forall event :: event in events ==> !Names(event)
    ensures var q := HandledAll(p, events); q.id == p.id && q.model == p.model && AllNamed(q.sent, p.id, p.model)
    decreases |events|
  {
    hide Handled, AllNamed, Names;
    if events != [] {
      NameStays(p, events[0]);
      NamesStay(Handled(p, events[0]), events[1..]);
    }
  }

  lemma {:induction false} DeltasNameNothing(block: Content, fragments: seq<string>)
    ensures forall event :: event in DeltaEvents(block, fragments) ==> !Names(event)
  {
    if fragments != [] {
      DeltasNameNothing(block, fragments[..|fragments| - 1]);
    }
  }

  lemma {:induction false} BlocksNameNothing(content: seq<Content>, fragments: seq<seq<string>>)
    requires |fragments| == |content|
    ensures forall event :: event in BlockEvents(content, fragments) ==> !Names(event)
  {
    if content != [] {
      var n := |content| - 1;
      BlocksNameNothing(content[..n], fragments[..n]);
      DeltasNameNothing(content[n], fragments[n]);
    }
  }

  /** Every chunk of a stream has the id and the model of the one-piece answer. */
  lemma ChunksAreNamed(response: Response, fragments: seq<seq<string>>, first: Usage, final: Usage)
    requires |fragments| == |response.content| && response.id != ""
    ensures AllNamed(HandledAll(START, Events(response, fragments, first, final)).sent, ChatId(response.id), response.model)
  {
    var blocks := BlockEvents(response.content, fragments);
    BlocksNameNothing(response.content, fragments);
    StartOfMessageHandled(response, first);
    HandledParts(START, StartOfMessage(response, first), blocks, EndEvent(response, final));
    assert !Names(EndEvent(response, final));
    hide HandledAll, BlockEvents, Names, Handled;
    var p := Handled(START, StartOfMessage(response, first));
    NamesStay(p, blocks);
    NameStays(HandledAll(p, blocks), EndEvent(response, final));
  }

  // ---- Events that carry nothing ----

  predicate Idle(event: StreamResponse) {
    event.kind !in ["message_start", "content_block_start", "content_block_delta", "message_delta"]
  }

  function Significant(events: seq<StreamResponse>): seq<StreamResponse> {
    if events == [] then []
    else if Idle(events[0]) then Significant(events[1..]) else [events[0]] + Significant(events[1..])
  }

  /** The same state of the loop, and the same view for the client. */
  ghost predicate Alike(p: Progress, q: Progress) {
    p.usage == q.usage && p.id == q.id && p.model == q.model && p.lastToolCalls == q.lastToolCalls
    && ClientView(p.sent) == ClientView(q.sent)
  }

  /** Pings, ends of blocks and messages, errors and whatever else may come: all but the four kinds that carry something. */
  lemma IdleKinds(event: StreamResponse)
    ensures Idle(event) <==>
            && event.kind != "message_start" && event.kind != "message_delta"
            && event.kind != "content_block_start" && event.kind != "content_block_delta"
  {
  }

  lemma IdleTranslated(event: StreamResponse)
    requires Idle(event)
    ensures StreamResponseClaude2OpenAI(event) == (Some(Choice(Some(""), [], Some(""))), None)
  {
  }

  lemma IdleShowsNothing(p: Progress, event: StreamResponse)
    requires Idle(event)
    ensures Alike(Handled(p, event), p)
  {
    hide StreamResponseClaude2OpenAI, Idle;
    IdleTranslated(event);
    SentOneMore(p, Handled(p, event).sent[|p.sent|]);
    hide ClientView;
    assert ClientView(p.sent).text + "" == ClientView(p.sent).text;
  }

  lemma HandledAlike(p: Progress, q: Progress, event: StreamResponse)
    requires Alike(p, q)
    ensures Alike(Handled(p, event), Handled(q, event))
  {
    hide StreamResponseClaude2OpenAI, ClientView;
    var (choice, meta) := StreamResponseClaude2OpenAI(event);
    if choice.Some? && !(meta.Some? && meta.value.id != "") {
      SentOneMore(p, Handled(p, event).sent[|p.sent|]);
      SentOneMore(q, Handled(q, event).sent[|q.sent|]);
    }
  }

  /** Pings, block ends and events of unknown kinds, wherever they come, change nothing for the client. */
  lemma {:induction false} IdleEventsVanish(p: Progress, q: Progress, events: seq<StreamResponse>)
    requires Alike(p, q)
    ensures Alike(HandledAll(p, events), HandledAll(q, Significant(events)))
    decreases |events|
  {
    hide Alike, Handled;
    if events != [] {
      if Idle(events[0]) {
        IdleShowsNothing(p, events[0]);
        AlikeTransitive(Handled(p, events[0]), p, q);
        IdleEventsVanish(Handled(p, events[0]), q, events[1..]);
      } else {
        HandledAlike(p, q, events[0]);
        IdleEventsVanish(Handled(p, events[0]), Handled(q, events[0]), events[1..]);
        assert Significant(events)[1..] == Significant(events[1..]);
      }
    }
  }

  lemma AlikeTransitive(p: Progress, q: Progress, r: Progress)
    requires Alike(p, q) && Alike(q, r)
    ensures Alike(p, r)
  {
  }
}
