/** What the replies of a well-conducted session amount to, read off the transcript alone: which replies
    grant something, which requests the policy lets through, and where a session has to stop. */
module AppServerApprovals {
  import opened Prelude
  import opened AppServerProtocol

  predicate AsksApproval(verb: string) {
    || verb == "item/commandExecution/requestApproval" || verb == "item/fileChange/requestApproval"
    || verb == "item/permissions/requestApproval" || verb == "execCommandApproval" || verb == "applyPatchApproval"
  }

  predicate KnownVerb(verb: string) {
    AsksApproval(verb) || verb == "item/tool/call" || verb == "item/tool/requestUserInput" || verb == "mcpServer/elicitation/request"
  }

  /** The replies that let the agent go on with what it asked for. */
  predicate Grants(body: Body) {
    body == Decision("acceptForSession") || body == Decision("allow") || body == Permissions(true)
  }

  predicate Denies(body: Body) {
    body == Decision("decline") || body == Decision("deny") || body == Permissions(false)
  }

  /** The operator's policy lets the request through: it is "never" or "on-failure" in some spelling, or its
      flag for this kind of request is set. */
  predicate Permits(policy: Policy, verb: string) {
    || (policy.TextPolicy? && (Fold(policy.text) == "never" || Fold(policy.text) == "on-failure"))
    || (policy.Granular? && verb == "item/permissions/requestApproval" && policy.permissions)
    || (policy.Granular? && verb != "item/permissions/requestApproval" && (policy.sandbox || policy.rules))
  }

  predicate Approving(choice: string) {
    HasPrefix(Fold(choice), "approve") || HasPrefix(Fold(choice), "allow")
  }

  /** A tool-approval question that offers some approval. */
  ghost predicate Answerable(q: Question) {
    && q.id.Some? && HasPrefix(q.id.value, "mcp_tool_call_approval_") && q.options.Some?
    && exists choice :: Some(choice) in q.options.value && Approving(choice)
  }

  /** The questions may be answered without asking anybody. */
  ghost predicate InputAnswerable(policy: Policy, msg: Msg) {
    && policy == TextPolicy("never") && msg.questions.Some? && msg.questions.value != []
    && forall q :: q in msg.questions.value ==> Answerable(q)
  }

  /** The answer names its question and approves by an option offered: for the session if that is on
      offer, else once if that is, else by the first option that approves. */
  ghost predicate Answers(q: Question, id: string, choice: string) {
    && q.id == Some(id) && q.options.Some? && Some(choice) in q.options.value && Approving(choice)
    && (Some("Approve this Session") in q.options.value ==> choice == "Approve this Session")
    && (Some("Approve this Session") !in q.options.value && Some("Approve Once") in q.options.value ==> choice == "Approve Once")
    && (Some("Approve this Session") !in q.options.value && Some("Approve Once") !in q.options.value ==>
          exists i :: FirstChoice(q.options.value, i, choice))
  }

  predicate FirstChoice(options: seq<Option<string>>, i: nat, choice: string) {
    i < |options| && options[i] == Some(choice) &&
    forall j :: 0 <= j < i && options[j].Some? ==> !Approving(options[j].value)
  }

  // ---------------------------------------------------------------------------------------------
  // The choice among options

  lemma {:induction false} LabelsAre(options: seq<Option<string>>, name: string)
    ensures name in Labels(options) <==> Some(name) in options
  {
    if options != [] {
      LabelsAre(options[1..], name);
      assert options == [options[0]] + options[1..];
    }
  }

  lemma FirstApprovingNext(options: seq<Option<string>>)
    requires options != []
    ensures FirstApproving(Labels(options)) ==
            if options[0].Some? && Approving(options[0].value) then options[0] else FirstApproving(Labels(options[1..]))
  {
    var rest := Labels(options[1..]);
    assert options[0].Some? ==> Labels(options) == [options[0].value] + rest && Labels(options)[1..] == rest;
    assert options[0].None? ==> Labels(options) == rest;
  }

  /** None of the options approves. */
  predicate NoneApproves(options: seq<Option<string>>) {
    forall j :: 0 <= j < |options| && options[j].Some? ==> !Approving(options[j].value)
  }

  lemma LaterChoice(options: seq<Option<string>>, i: nat, choice: string)
    requires options != [] && !(options[0].Some? && Approving(options[0].value))
    ensures FirstChoice(options[1..], i, choice) ==> FirstChoice(options, i + 1, choice)
    ensures NoneApproves(options[1..]) ==> NoneApproves(options)
  {
    assert forall j :: 0 < j < |options| ==> options[j] == options[1..][j - 1];
  }

  lemma {:induction false} FirstApprovingIs(options: seq<Option<string>>) returns (i: nat)
    ensures var r := FirstApproving(Labels(options));
            if r.Some? then FirstChoice(options, i, r.value) && Approving(r.value) else NoneApproves(options)
  {
    i := 0;
    if options != [] {
      FirstApprovingNext(options);
      if !(options[0].Some? && Approving(options[0].value)) {
        i := FirstApprovingIs(options[1..]);
        var r := FirstApproving(Labels(options));
        LaterChoice(options, i, if r.Some? then r.value else "");
        i := i + 1;
      }
    }
  }

  lemma PreferredApprove()
    ensures Approving("Approve this Session") && Approving("Approve Once")
  {
    FoldIs("Approve this Session", "approve this session");
    FoldIs("Approve Once", "approve once");
    assert "approve this session"[..7] == "approve" && "approve once"[..7] == "approve";
  }

  lemma ChosenIs(q: Question)
    requires q.id.Some? && HasPrefix(q.id.value, "mcp_tool_call_approval_") && q.options.Some?
    ensures var r := ChosenLabel(Labels(q.options.value));
            if r.Some? then Answers(q, q.id.value, r.value) else !Answerable(q)
  {
    var options := q.options.value;
    PreferredApprove();
    LabelsAre(options, "Approve this Session");
    LabelsAre(options, "Approve Once");
    var i := FirstApprovingIs(options);
    if FirstApproving(Labels(options)).Some? {
      LabelsAre(options, FirstApproving(Labels(options)).value);
    }
  }

  lemma AnswerToIs(q: Question)
    ensures var r := AnswerTo(q);
            if r.Some? then Answers(q, r.value.0, r.value.1) && Answerable(q) else !Answerable(q)
  {
    if q.id.Some? && HasPrefix(q.id.value, "mcp_tool_call_approval_") && q.options.Some? {
      ChosenIs(q);
    }
  }

  /** Every question is answered, in order. */
  ghost predicate AnswersAll(questions: seq<Question>, chosen: seq<(string, string)>) {
    |chosen| == |questions| && forall i :: 0 <= i < |chosen| ==> Answers(questions[i], chosen[i].0, chosen[i].1)
  }

  lemma {:induction false} AllAnswersAre(questions: seq<Question>)
    ensures var r := AllAnswers(questions);
            if r.Some? then AnswersAll(questions, r.value) && forall q :: q in questions ==> Answerable(q)
            else exists q :: q in questions && !Answerable(q)
  {
    if questions != [] {
      AnswerToIs(questions[0]);
      AllAnswersAre(questions[1..]);
      AnswersNext(questions[0], questions[1..]);
      assert questions == [questions[0]] + questions[1..];
    }
  }

  lemma AnswersNext(q: Question, rest: seq<Question>)
    ensures forall a: (string, string), chosen ::
              Answers(q, a.0, a.1) && AnswersAll(rest, chosen) ==> AnswersAll([q] + rest, [a] + chosen)
    ensures forall x :: x in [q] + rest <==> x == q || x in rest
  {
  }

  lemma InputAnswersAre(policy: Policy, msg: Msg)
    ensures var r := UserInputAnswers(policy, msg);
            && (r.Some? <==> InputAnswerable(policy, msg))
            && (r.Some? ==> AnswersAll(msg.questions.value, r.value))
  {
    if msg.questions.Some? {
      AllAnswersAre(msg.questions.value);
    }
  }

  // ---------------------------------------------------------------------------------------------
  // Transcripts

  /** A reply grants what the policy permits, denies what it does not, and does so in the request's terms. */
  predicate FitDecision(policy: Policy, verb: string, body: Body) {
    && (Grants(body) <==> AsksApproval(verb) && Permits(policy, verb))
    && (Denies(body) <==> AsksApproval(verb) && !Permits(policy, verb))
    && (body.Permissions? <==> verb == "item/permissions/requestApproval")
    && (body == Decision("allow") || body == Decision("deny") <==> verb == "execCommandApproval" || verb == "applyPatchApproval")
  }

  /** The kind of reply each request gets. */
  ghost predicate FitReply(policy: Policy, msg: Msg, verb: string, body: Body) {
    && FitDecision(policy, verb, body)
    && (body == ElicitationDeclined <==> verb == "mcpServer/elicitation/request")
    && (body == ToolOutput <==> verb == "item/tool/call")
    && (body == MethodNotFound <==> !KnownVerb(verb))
    && (body.Answers? <==> verb == "item/tool/requestUserInput")
    && (body.Answers? ==> InputAnswerable(policy, msg) && AnswersAll(msg.questions.value, body.chosen))
  }

  /** A request that only an operator can settle. */
  ghost predicate ForOperator(policy: Policy, msg: Msg, verb: string) {
    || verb == "mcpServer/elicitation/request"
    || (AsksApproval(verb) && !Permits(policy, verb))
    || (verb == "item/tool/requestUserInput" && !InputAnswerable(policy, msg))
  }

  /** User input that nobody here may give. */
  ghost predicate Unanswerable(policy: Policy, msg: Msg) {
    msg.verb == Text("item/tool/requestUserInput") && !InputAnswerable(policy, msg)
  }

  lemma DecisionFits(policy: Policy, msg: Msg, verb: string)
    ensures var r := RightBody(policy, msg, verb); r.Some? ==> FitDecision(policy, verb, r.value)
  {
    if AsksApproval(verb) {
      ApprovalFits(policy, msg, verb);
    }
  }

  lemma ApprovalFits(policy: Policy, msg: Msg, verb: string)
    requires AsksApproval(verb)
    ensures RightBody(policy, msg, verb).Some? && FitDecision(policy, verb, RightBody(policy, msg, verb).value)
  {
  }

  lemma RightBodyFits(policy: Policy, msg: Msg, verb: string)
    ensures var r := RightBody(policy, msg, verb);
            && (r.None? <==> verb == "item/tool/requestUserInput" && !InputAnswerable(policy, msg))
            && (r.Some? ==> FitReply(policy, msg, verb, r.value))
  {
    InputAnswersAre(policy, msg);
    DecisionFits(policy, msg, verb);
  }

  lemma OperatorIs(policy: Policy, msg: Msg, verb: string)
    ensures NeedsOperator(policy, msg, verb) <==> ForOperator(policy, msg, verb)
  {
    InputAnswersAre(policy, msg);
  }

  /** Every reply of a conducted transcript answers the request just before it, grants exactly what the
      policy permits, and is of the kind that the request calls for. */
  lemma RepliesFollowPolicy(policy: Policy, trace: seq<Event>, i: nat)
    requires Conducted(policy, trace) && i < |trace| && trace[i].Sent? && trace[i].out.Reply?
    ensures i > 0 && trace[i - 1].Read? && trace[i - 1].msg.id == Some(trace[i].out.to) && trace[i - 1].msg.verb.Text?
    ensures FitReply(policy, trace[i - 1].msg, trace[i - 1].msg.verb.name, trace[i].out.body)
  {
    assert FitsAt(policy, trace, i) && FitsAt(policy, trace, i - 1);
    RightBodyFits(policy, trace[i - 1].msg, trace[i - 1].msg.verb.name);
  }

  /** Nothing follows a refusal, and nothing at all follows a question that nobody here may answer. */
  lemma RefusalIsLast(policy: Policy, trace: seq<Event>, i: nat)
    requires Conducted(policy, trace) && i < |trace|
    ensures trace[i].Sent? && trace[i].out.Reply? && (Denies(trace[i].out.body) || trace[i].out.body == ElicitationDeclined) ==>
              i == |trace| - 1
    ensures IsServerRequest(trace[i]) && Unanswerable(policy, trace[i].msg) ==> i == |trace| - 1
  {
    if trace[i].Sent? && trace[i].out.Reply? {
      RepliesFollowPolicy(policy, trace, i);
      OperatorIs(policy, trace[i - 1].msg, trace[i - 1].msg.verb.name);
      assert FitsAt(policy, trace, i) && FitsAt(policy, trace, i - 1);
    } else if IsServerRequest(trace[i]) {
      RightBodyFits(policy, trace[i].msg, trace[i].msg.verb.name);
      assert FitsAt(policy, trace, i);
    }
  }
}
