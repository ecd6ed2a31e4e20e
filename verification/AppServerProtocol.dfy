/** The messages of an app-server session (JSON-RPC 2.0 over stdio), how the client answers the
    server's own requests, and what a transcript of a well-conducted session looks like. */
module AppServerProtocol {
  import opened Prelude

  /** A decoded `id` member. Numbers are exact here. */
  datatype JsonId = Num(x: real) | Null | Name(s: string) | Structured

  datatype Method = NoMethod | NotText | Text(name: string)

  /** A question of a user-input request; an option without a label is None. */
  datatype Question = Question(id: Option<string>, options: Option<seq<Option<string>>>)

  /** The members of a message that the client looks at. */
  datatype Msg = Msg(id: Option<JsonId>, verb: Method, isError: bool, questions: Option<seq<Question>>,
                     flagsInput: bool, failedStatus: bool)

  const MIN_INT: real := -9223372036854775808.0
  const MAX_INT: real := 9223372036854775808.0

  /** Only an exact integer that fits is an id of ours; nothing is truncated. */
  function NumberId(id: Option<JsonId>): Option<int> {
    if id.Some? && id.value.Num? && id.value.x == id.value.x.Floor as real && MIN_INT <= id.value.x < MAX_INT
    then Some(id.value.x.Floor) else None
  }

  /** A number is taken for id n exactly if it is n and n fits in 64 bits. */
  lemma NumberIdIs(x: real, n: int)
    ensures NumberId(Some(Num(x))) == Some(n) <==> x == n as real && -0x8000_0000_0000_0000 <= n < 0x8000_0000_0000_0000
  {
    if x == n as real {
      assert x.Floor == n;
    }
  }

  datatype Response = NotMine | Failed | Result

  /** responseForID. A message with a method is never a response. */
  function ResponseFor(msg: Msg, id: int): Response {
    if msg.verb != NoMethod then NotMine
    else if NumberId(msg.id).None? then if msg.id.Some? then Failed else NotMine
    else if NumberId(msg.id).value != id then NotMine
    else if msg.isError then Failed
    else Result
  }

  // ---------------------------------------------------------------------------------------------
  // How a server request is answered

  datatype Policy = TextPolicy(text: string) | Granular(sandbox: bool, rules: bool, permissions: bool) | OtherPolicy

  datatype Body =
    | Decision(text: string)
    | Permissions(granted: bool)
    | ElicitationDeclined
    | Answers(chosen: seq<(string, string)>)
    | ToolOutput
    | MethodNotFound

  const TOOL_CALL: string := "item/tool/call"
  const USER_INPUT: string := "item/tool/requestUserInput"
  const ELICITATION: string := "mcpServer/elicitation/request"
  const PERMISSIONS: string := "item/permissions/requestApproval"

  predicate ItemApproval(verb: string) {
    verb == "item/commandExecution/requestApproval" || verb == "item/fileChange/requestApproval"
  }

  predicate LegacyApproval(verb: string) {
    verb == "execCommandApproval" || verb == "applyPatchApproval"
  }

  predicate IsApproval(verb: string) {
    ItemApproval(verb) || LegacyApproval(verb) || verb == PERMISSIONS
  }

  predicate AutoApproves(policy: Policy, verb: string) {
    match policy
    case TextPolicy(text) => Fold(text) == "never" || Fold(text) == "on-failure"
    case Granular(sandbox, rules, permissions) => if verb == PERMISSIONS then permissions else sandbox || rules
    case OtherPolicy => false
  }

  predicate ApprovingLabel(choice: string) {
    HasPrefix(Fold(choice), "approve") || HasPrefix(Fold(choice), "allow")
  }

  function Labels(options: seq<Option<string>>): seq<string> {
    if options == [] then []
    else (if options[0].Some? then [options[0].value] else []) + Labels(options[1..])
  }

  function FirstApproving(labels: seq<string>): Option<string> {
    if labels == [] then None
    else if ApprovingLabel(labels[0]) then Some(labels[0])
    else FirstApproving(labels[1..])
  }

  function ChosenLabel(labels: seq<string>): Option<string> {
    if "Approve this Session" in labels then Some("Approve this Session")
    else if "Approve Once" in labels then Some("Approve Once")
    else FirstApproving(labels)
  }

  function AnswerTo(q: Question): Option<(string, string)> {
    if q.id.None? || !HasPrefix(q.id.value, "mcp_tool_call_approval_") || q.options.None? then None
    else
      var choice := ChosenLabel(Labels(q.options.value));
      if choice.None? then None else Some((q.id.value, choice.value))
  }

  /** Every question answered, or none. */
  function AllAnswers(questions: seq<Question>): Option<seq<(string, string)>> {
    if questions == [] then Some([])
    else
      var head, tail := AnswerTo(questions[0]), AllAnswers(questions[1..]);
      if head.None? || tail.None? then None else Some([head.value] + tail.value)
  }

  /** What a user-input request is answered with, if the client may answer it at all. */
  function UserInputAnswers(policy: Policy, msg: Msg): Option<seq<(string, string)>> {
    if policy != TextPolicy("never") || msg.questions.None? || msg.questions.value == [] then None
    else AllAnswers(msg.questions.value)
  }

  /** The one answer to a server request, or None for the user-input request nobody here can answer. */
  function RightBody(policy: Policy, msg: Msg, verb: string): Option<Body> {
    if verb == TOOL_CALL then Some(ToolOutput)
    else if verb == USER_INPUT then
      var answers := UserInputAnswers(policy, msg);
      if answers.Some? then Some(Answers(answers.value)) else None
    else if ItemApproval(verb) then Some(Decision(if AutoApproves(policy, verb) then "acceptForSession" else "decline"))
    else if verb == PERMISSIONS then Some(Permissions(AutoApproves(policy, verb)))
    else if LegacyApproval(verb) then Some(Decision(if AutoApproves(policy, verb) then "allow" else "deny"))
    else if verb == ELICITATION then Some(ElicitationDeclined)
    else Some(MethodNotFound)
  }

  /** Requests after which an operator has to act. */
  predicate NeedsOperator(policy: Policy, msg: Msg, verb: string) {
    || verb == ELICITATION
    || (IsApproval(verb) && !AutoApproves(policy, verb))
    || (verb == USER_INPUT && UserInputAnswers(policy, msg).None?)
  }

  // ---------------------------------------------------------------------------------------------
  // Transcripts

  datatype Outgoing = Call(id: int, verb: string) | Notify(verb: string) | Reply(to: JsonId, body: Body)

  /** A message read while awaiting a response or during a turn, or a message written. */
  datatype Event = Read(msg: Msg, duringTurn: bool) | Sent(out: Outgoing)

  predicate TurnTerminal(verb: string) {
    verb == "turn/completed" || verb == "turn/failed" || verb == "turn/cancelled"
  }

  /** A server request: an id and a method, and, during a turn, not one of the methods that end it. */
  predicate IsServerRequest(e: Event) {
    e.Read? && e.msg.id.Some? && e.msg.verb.Text? && e.msg.verb.name != "" &&
    !(e.duringTurn && TurnTerminal(e.msg.verb.name))
  }

  predicate IsReply(e: Event) {
    e.Sent? && e.out.Reply?
  }

  predicate Answer(policy: Policy, request: Event, e: Event)
    requires IsServerRequest(request)
  {
    IsReply(e) && e.out.to == request.msg.id.value &&
    RightBody(policy, request.msg, request.msg.verb.name) == Some(e.out.body)
  }

  predicate EndsSession(policy: Policy, e: Event) {
    IsServerRequest(e) && NeedsOperator(policy, e.msg, e.msg.verb.name)
  }

  /** Event i has its place: a server request is answered, rightly, by the next event; a reply follows the
      request it answers; nothing follows the answer to a request that needs an operator. */
  predicate FitsAt(policy: Policy, trace: seq<Event>, i: nat)
    requires i < |trace|
  {
    && (IsServerRequest(trace[i]) && i + 1 < |trace| ==> Answer(policy, trace[i], trace[i + 1]))
    && (IsReply(trace[i]) ==> i > 0 && IsServerRequest(trace[i - 1]))
    && (i + 2 < |trace| ==> !EndsSession(policy, trace[i]))
  }

  /** Every server request is answered, rightly, by the very next event, unless the transcript stops
      there; a reply only ever follows the request it answers; and nothing follows the answer to a
      request that needs an operator. */
  ghost predicate Conducted(policy: Policy, trace: seq<Event>) {
    forall i {:trigger FitsAt(policy, trace, i)} :: 0 <= i < |trace| ==> FitsAt(policy, trace, i)
  }

  /** The client's own calls carry ids that only grow, all below `next`. */
  ghost predicate FreshIds(trace: seq<Event>, next: int) {
    && (forall i :: 0 <= i < |trace| && trace[i].Sent? && trace[i].out.Call? ==> trace[i].out.id < next)
    && (forall i, j | 0 <= i < j < |trace| && trace[i].Sent? && trace[i].out.Call? && trace[j].Sent? && trace[j].out.Call?
          :: trace[i].out.id < trace[j].out.id)
  }

  /** No request is waiting for its answer, and none asked for an operator: the session may go on. */
  predicate Calm(policy: Policy, trace: seq<Event>) {
    && (|trace| > 0 ==> !IsServerRequest(trace[|trace| - 1]))
    && (|trace| > 1 ==> !EndsSession(policy, trace[|trace| - 2]))
  }

  /** A request has just been read. */
  predicate Asked(trace: seq<Event>, msg: Msg) {
    |trace| > 0 && IsServerRequest(trace[|trace| - 1]) && trace[|trace| - 1].msg == msg
  }

  lemma CalmAppends(policy: Policy, trace: seq<Event>, e: Event)
    requires Conducted(policy, trace) && Calm(policy, trace) && !IsReply(e)
    ensures Conducted(policy, trace + [e])
    ensures !IsServerRequest(e) ==> Calm(policy, trace + [e])
  {
    forall i | 0 <= i < |trace| + 1 ensures FitsAt(policy, trace + [e], i) {
      assert i < |trace| ==> FitsAt(policy, trace, i);
    }
  }

  lemma AnswerAppends(policy: Policy, trace: seq<Event>, e: Event)
    requires Conducted(policy, trace) && |trace| > 0 && IsServerRequest(trace[|trace| - 1])
    requires |trace| > 1 ==> !EndsSession(policy, trace[|trace| - 2])
    requires Answer(policy, trace[|trace| - 1], e)
    ensures Conducted(policy, trace + [e])
    ensures !EndsSession(policy, trace[|trace| - 1]) ==> Calm(policy, trace + [e])
  {
    forall i | 0 <= i < |trace| + 1 ensures FitsAt(policy, trace + [e], i) {
      assert i < |trace| ==> FitsAt(policy, trace, i);
    }
  }

  /** In a conducted transcript each server request is answered at most once, and exactly once if
      anything follows it: two replies never answer the same reading. */
  lemma AnsweredExactlyOnce(policy: Policy, trace: seq<Event>, i: nat)
    requires Conducted(policy, trace) && i + 1 < |trace| && IsServerRequest(trace[i])
    ensures Answer(policy, trace[i], trace[i + 1])
    ensures i + 2 < |trace| ==> !IsReply(trace[i + 2])
    ensures forall j :: i + 1 < j < |trace| && IsReply(trace[j]) ==>
              exists k :: i < k < j && IsServerRequest(trace[k]) && Answer(policy, trace[k], trace[j])
  {
    assert FitsAt(policy, trace, i);
    assert i + 2 < |trace| ==> FitsAt(policy, trace, i + 2);
    forall j | i + 1 < j < |trace| && IsReply(trace[j])
      ensures exists k :: i < k < j && IsServerRequest(trace[k]) && Answer(policy, trace[k], trace[j])
    {
      assert FitsAt(policy, trace, j) && FitsAt(policy, trace, j - 1);
      assert IsServerRequest(trace[j - 1]) && Answer(policy, trace[j - 1], trace[j]);
    }
  }

  /** A server request is never taken for a response, whatever its id. */
  lemma RequestIsNoResponse(msg: Msg, duringTurn: bool, id: int)
    ensures ResponseFor(msg, id) != NotMine ==> !IsServerRequest(Read(msg, duringTurn))
    ensures ResponseFor(msg, id) == Result ==> msg.verb == NoMethod && msg.id == Some(Num(id as real)) && !msg.isError
  {
  }
}
