/** The chat endpoint (chat-service/src/handler.ts): validate the request,
    then let the language model talk for at most ten rounds. Each model answer
    is appended to the conversation; a `tool_use` answer runs every requested
    tool and appends one user message with their results; an `end_turn`
    answer gives the reply. The model and the tools are oracles: the model
    maps a conversation to an answer or to an exception, and a tool maps its
    call to a result or to an exception. */
module ChatHandler {
  import opened Common
  import opened Types
  import opened Db
  import UpsertSearchProfile
  import SearchWorker

  const MaxToolRounds: nat := 10

  datatype Role = UserRole | AssistantRole

  /** What a tool call gives back to the model: the tool's own result, or an
      `{error}` object. JSON serialisation is left out. */
  datatype ToolOutput = ToolValue(json: string) | ToolError(error: string)

  datatype ContentBlock =
    | TextBlock(text: string)
    | ToolUseBlock(id: string, name: string, input: string)
    | ToolResultBlock(toolUseId: string, content: ToolOutput)
    | OtherBlock

  datatype Message = Message(role: Role, content: seq<ContentBlock>)

  datatype StopReason = EndTurn | ToolUse | MaxTokens | StopSequence

  datatype ModelAnswer = ModelAnswer(content: seq<ContentBlock>, stopReason: StopReason)

  /** The six tools of `TOOLS`, each with the arguments `executeTool` passes. */
  datatype Tool = GetUserProfile | UpsertSearchProfileTool | GetSearchResults | ScheduleViewing
                | GetPendingFeedback | SaveViewingFeedback

  /** One tool call as `executeTool` makes it: the tool, its input, the user
      and, for the one tool that is given it, the e-mail claim. */
  datatype ToolCall = ToolCall(tool: Tool, input: string, userId: string, userEmail: Option<string>)

  /** The request body: missing (or empty), text `JSON.parse` refuses, or an
      object with optional `messages` and `sessionId`. */
  datatype Body = Missing | Unparsable | Parsed(messages: Option<seq<Message>>, sessionId: Option<string>)

  /** The request: body and the `sub` and `email` claims of the JWT. */
  datatype Request = Request(body: Body, sub: string, email: Option<string>)

  datatype Response =
    | ErrorResponse(statusCode: int, error: string)
    | ChatReply(reply: string, sessionId: string, messages: seq<Message>, hasToolUse: bool)

  /** The model client and the tools. */
  datatype Oracles = Oracles(
    model: seq<Message> -> Result<ModelAnswer, string>,
    runTool: ToolCall -> Result<string, string>)

  // ---------------------------------------------------------------- tools

  /** The names in `TOOLS`, in order. */
  const GetUserProfileName := "get_user_profile"
  const UpsertSearchProfileName := "upsert_search_profile"
  const GetSearchResultsName := "get_search_results"
  const ScheduleViewingName := "schedule_viewing"
  const GetPendingFeedbackName := "get_pending_feedback"
  const SaveViewingFeedbackName := "save_viewing_feedback"
  const ToolNames: seq<string> := [GetUserProfileName, UpsertSearchProfileName, GetSearchResultsName,
                                   ScheduleViewingName, GetPendingFeedbackName, SaveViewingFeedbackName]

  /** The tool the handler once offered and no longer dispatches. */
  const UpdateUserDetailsName := "update_user_details"
  const UnknownToolPrefix := "Unknown tool: "

  /** The `switch` of `executeTool`: which tool a name selects, with which
      arguments; `upsert_search_profile` is not given the e-mail claim. */
  function Dispatch(name: string, input: string, userId: string, userEmail: string): (c: Option<ToolCall>)
    ensures c.Some? ==> c.value.input == input && c.value.userId == userId
    ensures c.Some? && c.value.userEmail.Some? ==> c.value.userEmail.value == userEmail
  {
    if name == GetUserProfileName then Some(ToolCall(GetUserProfile, input, userId, None))
    else if name == UpsertSearchProfileName then Some(ToolCall(UpsertSearchProfileTool, input, userId, None))
    else if name == GetSearchResultsName then Some(ToolCall(GetSearchResults, input, userId, None))
    else if name == ScheduleViewingName then Some(ToolCall(ScheduleViewing, input, userId, Some(userEmail)))
    else if name == GetPendingFeedbackName then Some(ToolCall(GetPendingFeedback, input, userId, None))
    else if name == SaveViewingFeedbackName then Some(ToolCall(SaveViewingFeedback, input, userId, None))
    else None
  }

  /** `executeTool(...).catch(err => ({ error: String(err) }))`. */
  function ExecuteTool(name: string, input: string, userId: string, userEmail: string, o: Oracles): (r: ToolOutput)
    ensures r.ToolValue? ==>
      Dispatch(name, input, userId, userEmail).Some? && o.runTool(Dispatch(name, input, userId, userEmail).value) == Ok(r.json)
    ensures Dispatch(name, input, userId, userEmail).None? ==> r.ToolError?
  {
    match Dispatch(name, input, userId, userEmail)
    case None => ToolError(UnknownToolPrefix + name)
    case Some(call) =>
      match o.runTool(call)
      case Ok(v) => ToolValue(v)
      case Err(e) => ToolError(e)
  }

  /** The dispatch table covers exactly the names the model is offered, and
      only `schedule_viewing` receives the user's e-mail. */
  lemma DispatchTable(name: string, input: string, userId: string, userEmail: string)
    ensures Dispatch(name, input, userId, userEmail).Some? <==> name in ToolNames
    ensures var c := Dispatch(name, input, userId, userEmail);
      c.Some? ==> (c.value.userEmail.Some? <==> c.value.tool == ScheduleViewing)
  {
    if name in ToolNames {
      var i :| 0 <= i < |ToolNames| && ToolNames[i] == name;
      assert i == 0 || i == 1 || i == 2 || i == 3 || i == 4 || i == 5;
    }
  }

  /** Any other name, `update_user_details` among them, is answered with an
      error object and runs nothing. */
  lemma UnknownToolRefused(name: string, input: string, userId: string, userEmail: string, o: Oracles)
    ensures name !in ToolNames ==> ExecuteTool(name, input, userId, userEmail, o) == ToolError(UnknownToolPrefix + name)
    ensures UpdateUserDetailsName !in ToolNames
    ensures ExecuteTool(UpdateUserDetailsName, input, userId, userEmail, o) == ToolError(UnknownToolPrefix + UpdateUserDetailsName)
  {
    DispatchTable(name, input, userId, userEmail);
    DispatchTable(UpdateUserDetailsName, input, userId, userEmail);
    assert |GetUserProfileName| == 16 && |UpsertSearchProfileName| == 21 && |GetSearchResultsName| == 18;
    assert |ScheduleViewingName| == 16 && |GetPendingFeedbackName| == 20 && |SaveViewingFeedbackName| == 21;
  }

  /** A tool that throws becomes an error object; one that returns is passed on. */
  lemma ToolFailureCaught(name: string, input: string, userId: string, userEmail: string, o: Oracles)
    requires name in ToolNames
    ensures var c := Dispatch(name, input, userId, userEmail).value;
      ExecuteTool(name, input, userId, userEmail, o)
        == if o.runTool(c).Err? then ToolError(o.runTool(c).error) else ToolValue(o.runTool(c).value)
  {
  }

  function ToolUses(content: seq<ContentBlock>): seq<ContentBlock> {
    Filter(content, (b: ContentBlock) => b.ToolUseBlock?)
  }

  /** One `tool_result` per `tool_use` block, in block order, answering it
      by id. */
  function ToolResults(uses: seq<ContentBlock>, userId: string, userEmail: string, o: Oracles): (r: seq<ContentBlock>)
    requires forall i :: 0 <= i < |uses| ==> uses[i].ToolUseBlock?
    ensures |r| == |uses|
    ensures forall i :: 0 <= i < |r| ==>
      r[i] == ToolResultBlock(uses[i].id, ExecuteTool(uses[i].name, uses[i].input, userId, userEmail, o))
  {
    seq(|uses|, i requires 0 <= i < |uses| =>
      ToolResultBlock(uses[i].id, ExecuteTool(uses[i].name, uses[i].input, userId, userEmail, o)))
  }

  /** `response.content.find(b => b.type === 'text')?.text ?? ''`. */
  function FirstText(content: seq<ContentBlock>): (s: string)
    ensures s != "" ==> exists i :: 0 <= i < |content| && content[i] == TextBlock(s)
    ensures (forall i :: 0 <= i < |content| ==> !content[i].TextBlock?) ==> s == ""
    ensures forall i ::
      0 <= i < |content| && content[i].TextBlock? && (forall j :: 0 <= j < i ==> !content[j].TextBlock?) ==>
        s == content[i].text
  {
    if content == [] then ""
    else if content[0].TextBlock? then content[0].text
    else FirstText(content[1..])
  }

  // ---------------------------------------------------------------- the loop

  /** The loop's variables: the conversation, `reply` and `hasToolUse`. */
  datatype LoopState = LoopState(conversation: seq<Message>, reply: string, hasToolUse: bool)

  /** The tool message answering an assistant message's `tool_use` blocks. */
  function ToolMessage(content: seq<ContentBlock>, userId: string, userEmail: string, o: Oracles): Message {
    var uses := ToolUses(content);
    Message(UserRole, ToolResults(uses, userId, userEmail, o))
  }

  /** The rounds left to run from a state: ask the model, append its answer,
      then stop on `end_turn` (with its first text) or on any other reason but
      `tool_use`, or append the tool results and go on. A model failure
      leaves the loop with an exception. */
  function Rounds(st: LoopState, left: nat, userId: string, userEmail: string, o: Oracles): (r: Result<LoopState, string>)
    ensures r.Ok? ==> st.conversation <= r.value.conversation
    ensures r.Ok? ==> |r.value.conversation| <= |st.conversation| + 2 * left
    decreases left
  {
    if left == 0 then Ok(st)
    else
      match o.model(st.conversation)
      case Err(e) => Err(e)
      case Ok(answer) =>
        var conversation := st.conversation + [Message(AssistantRole, answer.content)];
        if answer.stopReason == EndTurn then Ok(LoopState(conversation, FirstText(answer.content), st.hasToolUse))
        else if answer.stopReason == ToolUse then
          Rounds(LoopState(conversation + [ToolMessage(answer.content, userId, userEmail, o)], st.reply, true),
                 left - 1, userId, userEmail, o)
        else Ok(st.(conversation := conversation))
  }

  function CountAssistant(ms: seq<Message>): (n: nat)
    ensures n <= |ms|
  {
    if ms == [] then 0 else (if ms[0].role == AssistantRole then 1 else 0) + CountAssistant(ms[1..])
  }

  lemma {:induction false} CountAssistantAppend(a: seq<Message>, b: seq<Message>)
    ensures CountAssistant(a + b) == CountAssistant(a) + CountAssistant(b)
  {
    if a == [] {
      assert a + b == b;
    } else {
      assert (a + b)[1..] == a[1..] + b;
      CountAssistantAppend(a[1..], b);
    }
  }

  /** The loop only appends to the conversation, one assistant message per
      model call, so `left` rounds make at most `left` calls; the reply stays
      as it was unless an `end_turn` answer sets it. */
  lemma {:induction false} RoundsAppendAtMost(st: LoopState, left: nat, userId: string, userEmail: string, o: Oracles)
    requires Rounds(st, left, userId, userEmail, o).Ok?
    ensures var st' := Rounds(st, left, userId, userEmail, o).value;
      && st.conversation <= st'.conversation
      && CountAssistant(st'.conversation[|st.conversation|..]) <= left
      && (st.hasToolUse ==> st'.hasToolUse)
    decreases left
  {
    if left > 0 {
      var answer := o.model(st.conversation).value;
      var assistant := Message(AssistantRole, answer.content);
      var conversation := st.conversation + [assistant];
      assert conversation[|st.conversation|..] == [assistant];
      if answer.stopReason == ToolUse {
        var tools := ToolMessage(answer.content, userId, userEmail, o);
        var next := LoopState(conversation + [tools], st.reply, true);
        RoundsAppendAtMost(next, left - 1, userId, userEmail, o);
        var st' := Rounds(next, left - 1, userId, userEmail, o).value;
        var rest := st'.conversation[|next.conversation|..];
        assert st'.conversation[|st.conversation|..] == [assistant, tools] + rest;
        CountAssistantAppend([assistant, tools], rest);
        assert CountAssistant([assistant, tools]) == 1 by {
          assert [assistant, tools][1..] == [tools];
        }
      }
    }
  }

  /** A model that always asks for tools exhausts the rounds: exactly one
      assistant message and one tool message per round, and the reply stays
      as it was. */
  lemma {:induction false} ToolsForeverExhaustsRounds(st: LoopState, left: nat, userId: string, userEmail: string, o: Oracles)
    requires forall c :: o.model(c).Ok? && o.model(c).value.stopReason == ToolUse
    ensures Rounds(st, left, userId, userEmail, o).Ok?
    ensures var st' := Rounds(st, left, userId, userEmail, o).value;
      && st'.reply == st.reply
      && st.conversation <= st'.conversation
      && |st'.conversation| == |st.conversation| + 2 * left
      && CountAssistant(st'.conversation[|st.conversation|..]) == left
      && st'.hasToolUse == (st.hasToolUse || left > 0)
    decreases left
  {
    if left > 0 {
      var answer := o.model(st.conversation).value;
      var assistant := Message(AssistantRole, answer.content);
      var tools := ToolMessage(answer.content, userId, userEmail, o);
      var next := LoopState(st.conversation + [assistant] + [tools], st.reply, true);
      ToolsForeverExhaustsRounds(next, left - 1, userId, userEmail, o);
      var st' := Rounds(next, left - 1, userId, userEmail, o).value;
      var rest := st'.conversation[|next.conversation|..];
      assert st'.conversation[|st.conversation|..] == [assistant, tools] + rest;
      CountAssistantAppend([assistant, tools], rest);
      assert CountAssistant([assistant, tools]) == 1 by {
        assert [assistant, tools][1..] == [tools];
      }
    }
  }

  /** An `end_turn` answer is appended and then ends the loop with its first
      text block's text (or `''`). */
  lemma EndTurnReplies(st: LoopState, left: nat, userId: string, userEmail: string, o: Oracles)
    requires left > 0 && o.model(st.conversation).Ok? && o.model(st.conversation).value.stopReason == EndTurn
    ensures var answer := o.model(st.conversation).value;
      Rounds(st, left, userId, userEmail, o)
        == Ok(LoopState(st.conversation + [Message(AssistantRole, answer.content)], FirstText(answer.content), st.hasToolUse))
  {
  }

  /** A `tool_use` answer is followed by one user message holding one
      `tool_result` per `tool_use` block, in block order, with matching ids. */
  lemma ToolRoundAnswersEveryUse(content: seq<ContentBlock>, userId: string, userEmail: string, o: Oracles)
    ensures var m := ToolMessage(content, userId, userEmail, o);
      var uses := ToolUses(content);
      && m.role == UserRole
      && |m.content| == |uses|
      && (forall i :: 0 <= i < |uses| ==> uses[i].ToolUseBlock? && uses[i] in content)
      && (forall i :: 0 <= i < |content| && content[i].ToolUseBlock? ==> content[i] in uses)
      && (forall i :: 0 <= i < |uses| ==>
            m.content[i].ToolResultBlock? && m.content[i].toolUseId == uses[i].id
            && m.content[i].content == ExecuteTool(uses[i].name, uses[i].input, userId, userEmail, o))
  {
  }

  // ---------------------------------------------------------------- the handler

  /** `handler`: the 400 checks, then the loop; a model failure is 500. */
  function Respond(req: Request, o: Oracles): (r: Response)
    ensures r.ErrorResponse? ==> r.statusCode == 400 || r.statusCode == 500
    ensures (r.ErrorResponse? && r.statusCode == 400) <==> Malformed(req.body)
    ensures r.ChatReply? ==> req.body.Parsed? && req.body.messages.value <= r.messages
  {
    match req.body
    case Missing => ErrorResponse(400, "Missing request body")
    case Unparsable => ErrorResponse(400, "Invalid JSON body")
    case Parsed(messages, sessionId) =>
      if messages.None? || |messages.value| == 0 then ErrorResponse(400, "Missing messages field")
      else
        match Rounds(LoopState(messages.value, "", false), MaxToolRounds, req.sub, req.email.GetOr(""), o)
        case Err(_) => ErrorResponse(500, "Failed to invoke model")
        case Ok(st) => ChatReply(st.reply, sessionId.GetOr(req.sub), st.conversation, st.hasToolUse)
  }

  predicate Malformed(body: Body) {
    body.Missing? || body.Unparsable? || (body.Parsed? && (body.messages.None? || |body.messages.value| == 0))
  }

  /** A missing body, bad JSON or no messages is 400 whatever the model would
      answer: the model is not consulted. */
  lemma BadRequestsSkipModel(req: Request, o1: Oracles, o2: Oracles)
    requires Malformed(req.body)
    ensures Respond(req, o1).ErrorResponse? && Respond(req, o1).statusCode == 400
    ensures Respond(req, o1) == Respond(req, o2)
  {
  }

  /** A reply carries the given session id, or the user id when none was
      given; its conversation extends the request's with at most ten
      assistant messages, one per model call. */
  lemma ReplyShape(req: Request, o: Oracles)
    requires Respond(req, o).ChatReply?
    ensures req.body.Parsed? && req.body.messages.Some?
    ensures var r := Respond(req, o);
      && r.sessionId == (if req.body.sessionId.Some? then req.body.sessionId.value else req.sub)
      && req.body.messages.value <= r.messages
      && CountAssistant(r.messages[|req.body.messages.value|..]) <= MaxToolRounds
  {
    RoundsAppendAtMost(LoopState(req.body.messages.value, "", false), MaxToolRounds, req.sub, req.email.GetOr(""), o);
  }

  /** When the model never ends its turn the reply is `''` after exactly ten
      rounds. */
  lemma RoundsRunOut(req: Request, o: Oracles)
    requires !Malformed(req.body)
    requires forall c :: o.model(c).Ok? && o.model(c).value.stopReason == ToolUse
    ensures var r := Respond(req, o);
      && r.ChatReply? && r.reply == "" && r.hasToolUse
      && req.body.messages.value <= r.messages
      && |r.messages| == |req.body.messages.value| + 2 * MaxToolRounds
      && CountAssistant(r.messages[|req.body.messages.value|..]) == MaxToolRounds
  {
    var start := LoopState(req.body.messages.value, "", false);
    ToolsForeverExhaustsRounds(start, MaxToolRounds, req.sub, req.email.GetOr(""), o);
    var st := Rounds(start, MaxToolRounds, req.sub, req.email.GetOr(""), o).value;
    assert Respond(req, o) == ChatReply(st.reply, req.body.sessionId.GetOr(req.sub), st.conversation, st.hasToolUse);
  }

  /** The `for (round …)` loop, with the conversation array grown in place
      (`conversationMessages.push`). */
  method Handler(req: Request, o: Oracles) returns (resp: Response)
    ensures resp == Respond(req, o)
  {
    if req.body.Missing? {
      return ErrorResponse(400, "Missing request body");
    }
    if req.body.Unparsable? {
      return ErrorResponse(400, "Invalid JSON body");
    }
    if req.body.messages.None? || |req.body.messages.value| == 0 {
      return ErrorResponse(400, "Missing messages field");
    }
    var userId := req.sub;
    var userEmail := req.email.GetOr("");
    var conversation := req.body.messages.value;
    ghost var start := LoopState(conversation, "", false);
    var reply := "";
    var hasToolUse := false;
    var round := 0;
    while round < MaxToolRounds
      invariant 0 <= round <= MaxToolRounds
      invariant Rounds(start, MaxToolRounds, userId, userEmail, o)
             == Rounds(LoopState(conversation, reply, hasToolUse), MaxToolRounds - round, userId, userEmail, o)
    {
      ghost var st := LoopState(conversation, reply, hasToolUse);
      var answer := o.model(conversation);
      if answer.Err? {
        assert Rounds(st, MaxToolRounds - round, userId, userEmail, o) == Err(answer.error);
        return ErrorResponse(500, "Failed to invoke model");
      }
      conversation := conversation + [Message(AssistantRole, answer.value.content)];
      if answer.value.stopReason == EndTurn {
        reply := FirstText(answer.value.content);
        assert Rounds(st, MaxToolRounds - round, userId, userEmail, o) == Ok(LoopState(conversation, reply, hasToolUse));
        return ChatReply(reply, req.body.sessionId.GetOr(userId), conversation, hasToolUse);
      }
      if answer.value.stopReason == ToolUse {
        hasToolUse := true;
        var uses := ToolUses(answer.value.content);
        var results := ToolResults(uses, userId, userEmail, o);
        assert Message(UserRole, results) == ToolMessage(answer.value.content, userId, userEmail, o);
        conversation := conversation + [Message(UserRole, results)];
        assert Rounds(st, MaxToolRounds - round, userId, userEmail, o)
            == Rounds(LoopState(conversation, reply, hasToolUse), MaxToolRounds - round - 1, userId, userEmail, o);
        round := round + 1;
        continue;
      }
      assert Rounds(st, MaxToolRounds - round, userId, userEmail, o) == Ok(LoopState(conversation, reply, hasToolUse));
      return ChatReply(reply, req.body.sessionId.GetOr(userId), conversation, hasToolUse);
    }
    return ChatReply(reply, req.body.sessionId.GetOr(userId), conversation, hasToolUse);
  }

  // ---------------------------------------------------------------- the upsert call

  /** Because `upsert_search_profile` is not given the e-mail claim, a user
      whose first record the chat creates is stored with the address `''`,
      and the search worker never mails that user a match. */
  lemma ChatCreatedUserIsNeverMailed(t: Tables, userId: string, input: UpsertSearchProfile.Input, now: string,
                                     freshId: string, configured: bool, sp: SearchProfile, env: SearchWorker.Env)
    requires userId !in t.users
    ensures var t1 := UpsertSearchProfile.Run(t, userId, input, None, now, freshId, configured).0;
      && userId in t1.users && t1.users[userId].email == ""
      && SearchWorker.ProfileRun(t1, t1.users[userId], sp, env).0.outbox == t1.outbox
      && SearchWorker.ProfileRun(t1, t1.users[userId], sp, env).0.notifications == t1.notifications
  {
    var t1 := UpsertSearchProfile.Run(t, userId, input, None, now, freshId, configured).0;
    var user := t1.users[userId];
    var news := SearchWorker.FoundNew(t1, user, sp, env);
    if news != [] {
      assert SearchWorker.StoreNew(t1, user, sp, news, env).0.outbox == t1.outbox;
    }
  }
}
