/** The client's side of a session, reading and writing one message at a time: calls that await their
    response while answering whatever the server asks meanwhile, and turns. */
module AppServerSession {
  import opened Prelude
  import opened AppServerProtocol
  import opened AppServerApprovals

  /** A line from the server: a message, something that does not decode, or a failed read. */
  datatype Frame = Line(msg: Msg) | Malformed(protocolLike: bool) | Unreadable

  datatype Failure = InputRequired | ReadFailed | WriteFailed | ToolFailed | CallFailed | TurnFailed

  /** How a session may stop with the last thing read unanswered: the write of the answer failed, the
      tool could not be served, or it is the user-input request that only an operator can answer. */
  ghost predicate Excused(policy: Policy, trace: seq<Event>, end: Option<Failure>) {
    |trace| > 0 && IsServerRequest(trace[|trace| - 1]) ==>
      var msg := trace[|trace| - 1].msg;
      || end == Some(WriteFailed)
      || (end == Some(ToolFailed) && msg.verb.name == TOOL_CALL)
      || (end == Some(InputRequired) && Unanswerable(policy, msg))
  }

  /** The message asks for an operator: a request that only one can settle, or a notification that says
      so during a turn. */
  ghost predicate AsksInput(policy: Policy, e: Event) {
    e.Read? && e.msg.verb.Text? &&
    ((IsServerRequest(e) && ForOperator(policy, e.msg, e.msg.verb.name)) ||
     (e.msg.id.None? && e.duringTurn && InputNotification(e.msg.verb.name, e.msg)))
  }

  /** The message ends a turn, and does so without an error. */
  predicate EndsTurn(e: Event) {
    e.Read? && e.msg.verb.Text? && e.msg.verb.name in ["turn/completed", "turn/failed", "turn/cancelled"]
  }

  predicate CompletesTurn(e: Event) {
    e.Read? && e.msg.verb == Text("turn/completed") && !e.msg.failedStatus
  }

  /** The message is the response to the call with this id. */
  predicate Responds(e: Event, id: int) {
    e.Read? && e.msg.verb == NoMethod && NumberId(e.msg.id) == Some(id)
  }

  /** A failure is the fault of what was read last. */
  ghost predicate Explained(policy: Policy, trace: seq<Event>, end: Option<Failure>) {
    var n := |trace|;
    && (end == Some(InputRequired) ==>
          (n > 0 && AsksInput(policy, trace[n - 1])) || (n > 1 && trace[n - 1].Sent? && AsksInput(policy, trace[n - 2])))
    && (end == Some(TurnFailed) ==> n > 0 && EndsTurn(trace[n - 1]) && !CompletesTurn(trace[n - 1]))
    && (end == Some(CallFailed) ==> n > 0 && trace[n - 1].Read? && trace[n - 1].msg.verb == NoMethod)
    && (end == Some(ToolFailed) ==> n > 0 && trace[n - 1].Read? && trace[n - 1].msg.verb == Text("item/tool/call"))
  }

  /** At most a message sent, and no call, has been added. */
  predicate Grows(before: seq<Event>, trace: seq<Event>) {
    trace == before ||
    (|trace| == |before| + 1 && trace[..|before|] == before && trace[|before|].Sent? && !trace[|before|].out.Call?)
  }

  /** The methods called, in order. */
  function Calls(trace: seq<Event>): seq<string> {
    if trace == [] then []
    else
      var n := |trace| - 1;
      Calls(trace[..n]) + if trace[n].Sent? && trace[n].out.Call? then [trace[n].out.verb] else []
  }

  lemma CallsNext(trace: seq<Event>, e: Event)
    ensures Calls(trace + [e]) == Calls(trace) + if e.Sent? && e.out.Call? then [e.out.verb] else []
  {
    assert (trace + [e])[..|trace|] == trace;
  }

  /** The handshake and then one call for each turn. */
  function SessionCalls(turns: nat): seq<string> {
    if turns == 0 then ["initialize", "thread/start"] else SessionCalls(turns - 1) + ["turn/start"]
  }

  /** Nothing from there on is a response to the call. */
  ghost predicate NoneResponds(trace: seq<Event>, from: nat, id: int) {
    forall j :: from <= j < |trace| ==> !Responds(trace[j], id)
  }

  /** Only what was read last may be, and then decides how the call ends. */
  ghost predicate ResponseIsLast(trace: seq<Event>, from: nat, id: int, end: Option<Failure>) {
    forall j :: from <= j < |trace| && Responds(trace[j], id) ==>
      j == |trace| - 1 && end == if trace[j].msg.isError then Some(CallFailed) else None
  }

  ghost predicate NoneEnds(trace: seq<Event>, from: nat) {
    forall j :: from <= j < |trace| ==> !EndsTurn(trace[j])
  }

  /** The same for the end of a turn. */
  ghost predicate EndIsLast(trace: seq<Event>, from: nat, end: Option<Failure>) {
    forall j :: from <= j < |trace| && EndsTurn(trace[j]) ==>
      j == |trace| - 1 && end == if CompletesTurn(trace[j]) then None else Some(TurnFailed)
  }

  lemma NoneEndsNext(trace: seq<Event>, from: nat, e: Event)
    requires NoneEnds(trace, from)
    ensures !EndsTurn(e) ==> NoneEnds(trace + [e], from)
    ensures EndIsLast(trace + [e], from, if CompletesTurn(e) then None else Some(TurnFailed))
  {
  }

  lemma NoneEndsGrows(before: seq<Event>, trace: seq<Event>, from: nat)
    requires NoneEnds(before, from) && Grows(before, trace)
    ensures NoneEnds(trace, from) && before <= trace && Calls(trace) == Calls(before)
    ensures forall end :: EndIsLast(trace, from, end)
  {
    GrowsOnly(before, trace);
  }

  lemma NoneRespondsNext(trace: seq<Event>, from: nat, id: int, e: Event)
    requires NoneResponds(trace, from, id)
    ensures !Responds(e, id) ==> NoneResponds(trace + [e], from, id)
    ensures e.Read? ==>
              ResponseIsLast(trace + [e], from, id, if e.msg.isError then Some(CallFailed) else None)
  {
  }

  lemma NoneRespondsGrows(before: seq<Event>, trace: seq<Event>, from: nat, id: int)
    requires NoneResponds(before, from, id) && Grows(before, trace)
    ensures NoneResponds(trace, from, id) && before <= trace && Calls(trace) == Calls(before)
    ensures forall end :: ResponseIsLast(trace, from, id, end)
  {
    GrowsOnly(before, trace);
  }

  /** A call with a new id leaves the transcript in order. */
  lemma CallAppends(policy: Policy, trace: seq<Event>, id: int, verb: string)
    requires Conducted(policy, trace) && Calm(policy, trace) && FreshIds(trace, id)
    ensures var t := trace + [Sent(Call(id, verb))];
            && Conducted(policy, t) && Calm(policy, t) && FreshIds(t, id + 1) && FreshIds(trace, id + 1)
            && Calls(t) == Calls(trace) + [verb] && NoneResponds(t, |trace|, id)
  {
    CalmAppends(policy, trace, Sent(Call(id, verb)));
    CallsNext(trace, Sent(Call(id, verb)));
    FreshIdsNext(trace, id, verb);
    NoneRespondsNext(trace, |trace|, id, Sent(Call(id, verb)));
  }

  lemma FreshIdsNext(trace: seq<Event>, id: int, verb: string)
    requires FreshIds(trace, id)
    ensures FreshIds(trace + [Sent(Call(id, verb))], id + 1) && FreshIds(trace, id + 1)
  {
  }

  /** In a calm session a failed write needs no other reason. */
  lemma WritesMayFail(policy: Policy, trace: seq<Event>)
    ensures Excused(policy, trace, Some(WriteFailed)) && Explained(policy, trace, Some(WriteFailed))
  {
  }

  /** A message without a method is this call's response if it has its id, and a failure if it has an id
      that no call can have. */
  lemma ResponseIs(msg: Msg, duringTurn: bool, id: int)
    ensures ResponseFor(msg, id) == Result <==> Responds(Read(msg, duringTurn), id) && !msg.isError
    ensures ResponseFor(msg, id) == Failed <==>
              (Responds(Read(msg, duringTurn), id) && msg.isError) || (msg.verb == NoMethod && msg.id.Some? && NumberId(msg.id).None?)
  {
  }

  lemma GrowsOnly(before: seq<Event>, trace: seq<Event>)
    requires Grows(before, trace)
    ensures before <= trace && Calls(trace) == Calls(before) && forall j :: |before| <= j < |trace| ==> !trace[j].Read?
  {
  }

  class Client {
    const policy: Policy
    /** What the world does at the n-th event: does a write get through, can a tool call be served,
        does the tracker want another turn. */
    const writeOk: nat -> bool
    const toolOk: nat -> bool
    const wantsMore: nat -> bool
    var inbox: seq<Frame>
    var nextId: int
    var trace: seq<Event>

    constructor (policy: Policy, inbox: seq<Frame>, writeOk: nat -> bool, toolOk: nat -> bool, wantsMore: nat -> bool)
      ensures this.policy == policy && this.inbox == inbox && trace == [] && nextId == 1
    {
      this.policy, this.inbox := policy, inbox;
      this.writeOk, this.toolOk, this.wantsMore := writeOk, toolOk, wantsMore;
      nextId, trace := 1, [];
    }

    /** The transcript so far is well conducted. */
    ghost predicate Sound()
      reads this
    {
      Conducted(policy, trace) && FreshIds(trace, nextId)
    }

    /** Sound, and free to read or call again. */
    ghost predicate Ready()
      reads this
    {
      Sound() && Calm(policy, trace)
    }

    /** The session goes on, or stops there for a stated reason. */
    ghost predicate Ended(end: Option<Failure>)
      reads this
    {
      Sound() && (end.None? ==> Ready()) && Excused(policy, trace, end) && Explained(policy, trace, end)
    }

    method Send(out: Outgoing) returns (ok: bool)
      modifies this`trace
      ensures trace == if ok then old(trace) + [Sent(out)] else old(trace)
    {
      ok := writeOk(|trace|);
      if ok {
        trace := trace + [Sent(out)];
      }
    }

    method ReadFrame(duringTurn: bool) returns (f: Frame)
      requires Ready()
      modifies this`trace, this`inbox
      ensures Sound() && |inbox| <= |old(inbox)| && (f.Line? || f.Malformed? ==> |inbox| < |old(inbox)|)
      ensures trace == if f.Line? then old(trace) + [Read(f.msg, duringTurn)] else old(trace)
      ensures Calls(trace) == Calls(old(trace))
      ensures !(f.Line? && IsServerRequest(Read(f.msg, duringTurn))) ==> Ready()
    {
      if inbox == [] {
        return Unreadable;
      }
      f, inbox := inbox[0], inbox[1..];
      if f.Line? {
        CalmAppends(policy, trace, Read(f.msg, duringTurn));
        CallsNext(trace, Read(f.msg, duringTurn));
        trace := trace + [Read(f.msg, duringTurn)];
      }
    }

    /** A reply to the request just read. */
    method ReplyTo(msg: Msg, body: Body) returns (ok: bool)
      requires Sound() && Asked(trace, msg) && (|trace| > 1 ==> !EndsSession(policy, trace[|trace| - 2]))
      requires RightBody(policy, msg, msg.verb.name) == Some(body)
      modifies this`trace
      ensures Sound() && (ok && !NeedsOperator(policy, msg, msg.verb.name) ==> Ready())
      ensures trace == if ok then old(trace) + [Sent(Reply(msg.id.value, body))] else old(trace)
    {
      AnswerAppends(policy, trace, Sent(Reply(msg.id.value, body)));
      ok := Send(Reply(msg.id.value, body));
    }

    /** handleToolUserInputRequest. */
    method HandleUserInput(msg: Msg) returns (end: Option<Failure>)
      requires Sound() && Asked(trace, msg) && (|trace| > 1 ==> !EndsSession(policy, trace[|trace| - 2]))
      requires msg.verb.name == USER_INPUT
      modifies this`trace
      ensures Ended(end) && Grows(old(trace), trace) && (end.None? || end == Some(InputRequired) || end == Some(WriteFailed))
      ensures end.None? ==> InputAnswerable(policy, msg)
      ensures end == Some(InputRequired) ==> !InputAnswerable(policy, msg)
    {
      InputAnswersAre(policy, msg);
      var answers := UserInputAnswers(policy, msg);
      if answers.None? {
        return Some(InputRequired);
      }
      var ok := ReplyTo(msg, Answers(answers.value));
      return if ok then None else Some(WriteFailed);
    }

    /** handleServerRequest. The session goes on only after an answer that needs no operator. */
    method HandleServerRequest(msg: Msg) returns (end: Option<Failure>)
      requires Sound() && Asked(trace, msg) && (|trace| > 1 ==> !EndsSession(policy, trace[|trace| - 2]))
      requires msg.verb.name != TOOL_CALL
      modifies this`trace
      ensures Ended(end) && Grows(old(trace), trace) && (end.None? || end == Some(InputRequired) || end == Some(WriteFailed))
      ensures end.None? ==> !ForOperator(policy, msg, msg.verb.name)
      ensures end == Some(InputRequired) ==> ForOperator(policy, msg, msg.verb.name)
    {
      var verb := msg.verb.name;
      OperatorIs(policy, msg, verb);
      RightBodyFits(policy, msg, verb);
      if verb == USER_INPUT {
        end := HandleUserInput(msg);
        return;
      }
      var ok := ReplyTo(msg, RightBody(policy, msg, verb).value);
      if !ok {
        return Some(WriteFailed);
      }
      if verb == ELICITATION || (IsApproval(verb) && !AutoApproves(policy, verb)) {
        return Some(InputRequired);
      }
      return None;
    }

    /** handleDynamicToolCall for a request. */
    method HandleToolRequest(msg: Msg) returns (end: Option<Failure>)
      requires Sound() && Asked(trace, msg) && (|trace| > 1 ==> !EndsSession(policy, trace[|trace| - 2]))
      requires msg.verb.name == TOOL_CALL
      modifies this`trace
      ensures Ended(end)
      ensures end.None? || end == Some(ToolFailed) || end == Some(WriteFailed)
      ensures Grows(old(trace), trace)
    {
      if !toolOk(|trace|) {
        return Some(ToolFailed);
      }
      var ok := ReplyTo(msg, ToolOutput);
      return if ok then None else Some(WriteFailed);
    }

    /** A call with a new id. */
    method SendCall(verb: string) returns (ok: bool)
      requires Ready()
      modifies this`trace, this`nextId
      ensures Ready() && Ended(Some(WriteFailed)) && nextId == old(nextId) + 1
      ensures trace == if ok then old(trace) + [Sent(Call(old(nextId), verb))] else old(trace)
      ensures Calls(trace) == Calls(old(trace)) + if ok then [verb] else []
      ensures ok ==> old(trace) <= trace && |old(trace)| < |trace|
      ensures NoneResponds(trace, |old(trace)|, old(nextId)) && ResponseIsLast(trace, |old(trace)|, old(nextId), Some(WriteFailed))
    {
      CallAppends(policy, trace, nextId, verb);
      ok := Send(Call(nextId, verb));
      nextId := nextId + 1;
      WritesMayFail(policy, trace);
    }

    /** One message read while call `id` awaits its response. */
    method AwaitResponse(id: int, ghost from: nat) returns (done: bool, end: Option<Failure>)
      requires Ready() && from <= |trace| && NoneResponds(trace, from, id)
      modifies this`trace, this`inbox
      ensures Ended(end) && old(trace) <= trace && |inbox| <= |old(inbox)| && Calls(trace) == Calls(old(trace))
      ensures !done ==> end.None? && NoneResponds(trace, from, id) && |inbox| < |old(inbox)|
      ensures done && end.None? ==> |trace| > 0 && Responds(trace[|trace| - 1], id)
      ensures done ==> ResponseIsLast(trace, from, id, end)
    {
      ghost var was := trace;
      var f := ReadFrame(false);
      if !f.Line? {
        return true, Some(ReadFailed);
      }
      NoneRespondsNext(was, from, id, Read(f.msg, false));
      ResponseIs(f.msg, false, id);
      var response := ResponseFor(f.msg, id);
      if response != NotMine {
        RequestIsNoResponse(f.msg, false, id);
        return true, if response == Result then None else Some(CallFailed);
      }
      if IsServerRequest(Read(f.msg, false)) {
        was := trace;
        end := DispatchRequest(f.msg);
        NoneRespondsGrows(was, trace, from, id);
        return end.Some?, end;
      }
      return false, None;
    }

    method AwaitCall(id: int, ghost from: nat) returns (end: Option<Failure>)
      requires Ready() && from < |trace| && NoneResponds(trace, from, id)
      modifies this`trace, this`inbox
      ensures Ended(end) && old(trace) <= trace && |inbox| <= |old(inbox)| && Calls(trace) == Calls(old(trace))
      ensures end.None? ==> Responds(trace[|trace| - 1], id)
      ensures ResponseIsLast(trace, from, id, end)
    {
      var done := false;
      end := None;
      while !done
        invariant |inbox| <= |old(inbox)| && old(trace) <= trace && Calls(trace) == Calls(old(trace))
        invariant if done then Ended(end) && ResponseIsLast(trace, from, id, end) else Ready() && NoneResponds(trace, from, id)
        invariant done && end.None? ==> Responds(trace[|trace| - 1], id)
        decreases !done, |inbox|
      {
        done, end := AwaitResponse(id, from);
      }
    }

    /** A call and the loop that awaits its response. On success the response is the last message
        read: it has this call's id and no method. No response to it is ever passed over. */
    method Request(verb: string) returns (end: Option<Failure>)
      requires Ready()
      modifies this
      ensures Ended(end) && nextId == old(nextId) + 1 && old(trace) <= trace && |inbox| <= |old(inbox)|
      ensures Calls(trace) == Calls(old(trace)) + [verb] || (end == Some(WriteFailed) && Calls(trace) == Calls(old(trace)))
      ensures end.None? ==> |trace| > |old(trace)| && Responds(trace[|trace| - 1], old(nextId))
      ensures ResponseIsLast(trace, |old(trace)|, old(nextId), end)
    {
      var id := nextId;
      var ok := SendCall(verb);
      end := Some(WriteFailed);
      if ok {
        end := AwaitCall(id, |old(trace)|);
      }
    }

    /** A tool call goes to its tool, everything else to the approval table. */
    method DispatchRequest(msg: Msg) returns (end: Option<Failure>)
      requires Sound() && Asked(trace, msg) && (|trace| > 1 ==> !EndsSession(policy, trace[|trace| - 2]))
      modifies this`trace
      ensures Ended(end)
      ensures Grows(old(trace), trace) && end != Some(CallFailed) && end != Some(TurnFailed)
      ensures ForOperator(policy, msg, msg.verb.name) ==> end == Some(InputRequired) || end == Some(WriteFailed)
    {
      if msg.verb.name == TOOL_CALL {
        end := HandleToolRequest(msg);
      } else {
        end := HandleServerRequest(msg);
      }
    }

    /** dispatchTurnMessage for a message that does not end the turn. */
    method TurnMessage(msg: Msg) returns (end: Option<Failure>)
      requires Sound() && |trace| > 0 && trace[|trace| - 1] == Read(msg, true) && !EndsTurn(trace[|trace| - 1])
      requires |trace| > 1 ==> !EndsSession(policy, trace[|trace| - 2])
      requires !IsServerRequest(Read(msg, true)) ==> Ready()
      modifies this`trace
      ensures Ended(end)
      ensures Grows(old(trace), trace) && end != Some(TurnFailed)
      ensures AsksInput(policy, Read(msg, true)) ==> end == Some(InputRequired) || end == Some(WriteFailed)
    {
      end := None;
      if !msg.verb.Text? || msg.verb.name == "" {
        return;
      }
      if msg.id.Some? {
        end := DispatchRequest(msg);
      } else if msg.verb.name == TOOL_CALL {
        ToolCallIsNoInput(msg);
        end := ToolNotification();
      } else if InputNotification(msg.verb.name, msg) {
        end := Some(InputRequired);
      }
    }

    /** One frame of a turn. */
    method TurnFrame(ghost from: nat) returns (done: bool, end: Option<Failure>)
      requires Ready() && from <= |trace| && NoneEnds(trace, from)
      modifies this`trace, this`inbox
      ensures Ended(end) && old(trace) <= trace && |inbox| <= |old(inbox)| && Calls(trace) == Calls(old(trace))
      ensures !done ==> end.None? && NoneEnds(trace, from) && |inbox| < |old(inbox)|
      ensures done && end.None? ==> |trace| > from && CompletesTurn(trace[|trace| - 1])
      ensures done ==> EndIsLast(trace, from, end)
    {
      ghost var was := trace;
      var f := ReadFrame(true);
      if !f.Line? {
        return f.Unreadable? || !f.protocolLike, if f.Malformed? && f.protocolLike then None else Some(ReadFailed);
      }
      NoneEndsNext(was, from, Read(f.msg, true));
      if f.msg.verb.Text? && TurnTerminal(f.msg.verb.name) {
        return true, if f.msg.verb.name == "turn/completed" && !f.msg.failedStatus then None else Some(TurnFailed);
      }
      was := trace;
      end := TurnMessage(f.msg);
      NoneEndsGrows(was, trace, from);
      done := end.Some?;
    }

    /** awaitTurnCompletion. No message that ends the turn is ever passed over. */
    method AwaitTurn() returns (end: Option<Failure>)
      requires Ready()
      modifies this`trace, this`inbox
      ensures Ended(end) && old(trace) <= trace && |inbox| <= |old(inbox)| && Calls(trace) == Calls(old(trace))
      ensures end.None? ==> |trace| > |old(trace)| && CompletesTurn(trace[|trace| - 1])
      ensures EndIsLast(trace, |old(trace)|, end)
    {
      ghost var from := |trace|;
      var done := false;
      end := None;
      while !done
        invariant |inbox| <= |old(inbox)| && old(trace) <= trace && Calls(trace) == Calls(old(trace))
        invariant if done then Ended(end) && EndIsLast(trace, from, end) else Ready() && NoneEnds(trace, from)
        invariant done && end.None? ==> |trace| > from && CompletesTurn(trace[|trace| - 1])
        decreases !done, |inbox|
      {
        done, end := TurnFrame(from);
      }
    }

    /** A tool call without an id is answered by a notification. */
    method ToolNotification() returns (end: Option<Failure>)
      requires Ready() && |trace| > 0 && trace[|trace| - 1].Read? && trace[|trace| - 1].msg.verb == Text("item/tool/call")
      modifies this`trace
      ensures Ready() && Excused(policy, trace, end) && Explained(policy, trace, end)
      ensures Grows(old(trace), trace) && (end.None? || end == Some(ToolFailed) || end == Some(WriteFailed))
    {
      if !toolOk(|trace|) {
        return Some(ToolFailed);
      }
      CalmAppends(policy, trace, Sent(Notify("item/tool/call/output")));
      var ok := Send(Notify("item/tool/call/output"));
      return if ok then None else Some(WriteFailed);
    }

    /** initSession and startThread. */
    method Handshake() returns (end: Option<Failure>)
      requires Ready() && trace == []
      modifies this
      ensures Ended(end) && Calls(trace) <= SessionCalls(0) && (end.None? ==> Calls(trace) == SessionCalls(0))
    {
      end := Request("initialize");
      if end.Some? {
        return;
      }
      CalmAppends(policy, trace, Sent(Notify("initialized")));
      CallsNext(trace, Sent(Notify("initialized")));
      var ok := Send(Notify("initialized"));
      if !ok {
        return Some(WriteFailed);
      }
      end := Request("thread/start");
    }

    /** run: the handshake, then turns until one stops the session or the limit is reached. Whatever
        the server sends, the whole transcript is well conducted and every call had its own id. Calls are
        made in order, at most one turn beyond those completed, and never more than the limit. */
    method Run(turnLimit: nat) returns (end: Option<Failure>, turns: nat)
      requires trace == [] && nextId == 1
      modifies this
      ensures Conducted(policy, trace) && FreshIds(trace, nextId)
      ensures (end.None? ==> Calm(policy, trace)) && Excused(policy, trace, end) && Explained(policy, trace, end)
      ensures turns <= turnLimit && Calls(trace) <= SessionCalls(turns) && (end.None? ==> Calls(trace) == SessionCalls(turns))
    {
      turns := 0;
      end := Handshake();
      while end.None? && turns < turnLimit
        invariant Ended(end) && turns <= turnLimit && Calls(trace) <= SessionCalls(turns)
        invariant end.None? ==> Calls(trace) == SessionCalls(turns)
        decreases end.None?, turnLimit - turns
      {
        turns := turns + 1;
        end := Request("turn/start");
        if end.None? {
          end := AwaitTurn();
          if end.None? && !wantsMore(|trace|) {
            return;
          }
        }
      }
    }
  }

  lemma ToolCallIsNoInput(msg: Msg)
    ensures !InputNotification("item/tool/call", msg)
  {
    assert "item/tool/call"[0] != "turn/"[0];
  }

  /** A notification that asks the operator for input. */
  predicate InputNotification(verb: string, msg: Msg) {
    verb == ELICITATION ||
    (HasPrefix(verb, "turn/") &&
     (verb in ["turn/input_required", "turn/needs_input", "turn/need_input", "turn/request_input",
                 "turn/request_response", "turn/provide_input", "turn/approval_required"] ||
      msg.flagsInput))
  }
}
