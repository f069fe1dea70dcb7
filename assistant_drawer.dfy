/** The assistant drawer: a conversation log, a loading flag and the text
    field, plus the decision which parts of a structured answer are shown.

    `handleSubmit` is an `async` handler that suspends at the gateway call;
    here it is two steps: `Submit` (everything before the `await`) and
    `Resolve` (everything after it). As for the player, the steps are pure
    functions on `Chat` and the methods of `Drawer` are proved to perform
    them. */
module AssistantDrawer {
  import opened Types
  import opened Text
  import GeminiService

  // ---------------------------------------------------------------------
  // The conversation
  // ---------------------------------------------------------------------

  /** What a bot turn holds: a structured answer, or plain text. */
  datatype BotContent = Structured(response: AssistantResponse) | Plain(text: string)

  datatype Turn = UserTurn(text: string) | BotTurn(content: BotContent)

  /** How the awaited gateway promise settled. */
  datatype CallOutcome = Resolved(response: AssistantResponse) | Rejected

  const CONNECTION_APOLOGY := "Sorry, I had trouble connecting."

  datatype Chat = Chat(input: string, loading: bool, history: seq<Turn>)

  const INITIAL_CHAT := Chat("", false, [])

  /** The turn the `try`/`catch` appends for an outcome. */
  function BotReply(outcome: CallOutcome): BotContent {
    match outcome
    case Resolved(response) => Structured(response)
    case Rejected => Plain(CONNECTION_APOLOGY)
  }

  /** The handler up to its `await`: a blank input is ignored; otherwise the
      input, untrimmed, becomes a user turn, the field is cleared and loading
      is set. The second component is the message sent to the gateway. */
  function SubmitStep(c: Chat): (r: (Chat, Option<string>))
    ensures r.1.Some? <==> !AllWhitespace(c.input)
    ensures r.1.None? ==> r.0 == c
    ensures r.1.Some? ==> && r.1.value == c.input && r.0.input == "" && r.0.loading
                          && r.0.history == c.history + [UserTurn(c.input)]
  {
    BlankIffAllWhitespace(c.input);
    if IsBlank(c.input) then (c, None)
    else (Chat("", true, c.history + [UserTurn(c.input)]), Some(c.input))
  }

  /** The handler after its `await`: one bot turn, then `finally` clears loading. */
  function ResolveStep(c: Chat, outcome: CallOutcome): (r: Chat)
    ensures |r.history| == |c.history| + 1 && r.history[..|c.history|] == c.history
    ensures r.history[|c.history|].BotTurn? && !r.loading && r.input == c.input
    ensures r.history[|c.history|] == BotTurn(Plain(CONNECTION_APOLOGY)) <==> outcome.Rejected?
  {
    c.(history := c.history + [BotTurn(BotReply(outcome))], loading := false)
  }

  /** Typing (`onChange`), a starter suggestion or a follow-up question: the
      field takes the text and nothing is submitted. */
  function SetInputStep(c: Chat, text: string): (r: Chat)
    ensures r.input == text && r.history == c.history && r.loading == c.loading
  {
    c.(input := text)
  }

  /** The send button is enabled only when the input is not blank and no
      answer is awaited. This is the only single-flight guard: the handler
      itself does not look at `loading`. */
  predicate SendEnabled(c: Chat) {
    !IsBlank(c.input) && !c.loading
  }

  lemma SubmitBlankIgnored(c: Chat)
    requires AllWhitespace(c.input)
    ensures SubmitStep(c) == (c, None)
  {
    BlankIffAllWhitespace(c.input);
  }

  /** A non-blank submit appends exactly one user turn holding the input as
      typed (not trimmed), clears the field and sets loading. */
  lemma SubmitAppendsUserTurn(c: Chat)
    requires !AllWhitespace(c.input)
    ensures var (next, sent) := SubmitStep(c);
      && sent == Some(c.input)
      && next.history == c.history + [UserTurn(c.input)]
      && next.input == "" && next.loading
  {
    BlankIffAllWhitespace(c.input);
  }

  /** Resolving appends exactly one bot turn: the answer, or the fixed apology
      on a rejection; loading is off afterwards either way, and the text
      field is left as the user may have retyped it. */
  lemma ResolveAppendsBotTurn(c: Chat, outcome: CallOutcome)
    ensures var next := ResolveStep(c, outcome);
      && next.history == c.history + [BotTurn(
           if outcome.Resolved? then Structured(outcome.response) else Plain(CONNECTION_APOLOGY))]
      && !next.loading && next.input == c.input
  {
  }

  // ---------------------------------------------------------------------
  // Runs of interface events
  // ---------------------------------------------------------------------

  /** The events that reach the drawer: typing (or picking a suggestion),
      pressing send (button or Enter), and the settling of a pending call. */
  datatype UiEvent = Typed(text: string) | SendPressed | Settled(outcome: CallOutcome)

  /** The chat and the number of gateway calls still pending. */
  datatype Session = Session(chat: Chat, pending: nat)

  /** One event. A press on a disabled button does nothing; a call can only
      settle while one is pending. */
  function Deliver(s: Session, e: UiEvent): (r: Session)
    ensures |s.chat.history| <= |r.chat.history| <= |s.chat.history| + 1
    ensures r.chat.history[..|s.chat.history|] == s.chat.history
    ensures e.Typed? ==> r == s.(chat := s.chat.(input := e.text))
    ensures e.SendPressed? && !SendEnabled(s.chat) ==> r == s
    ensures e.SendPressed? && SendEnabled(s.chat) ==>
      r.pending == s.pending + 1 && r.chat.loading && r.chat.input == ""
    ensures r.pending <= s.pending + 1
  {
    match e
    case Typed(text) => s.(chat := SetInputStep(s.chat, text))
    case SendPressed =>
      if SendEnabled(s.chat) then Session(SubmitStep(s.chat).0, s.pending + 1) else s
    case Settled(outcome) =>
      if s.pending > 0 then Session(ResolveStep(s.chat, outcome), s.pending - 1) else s
  }

  function Run(s: Session, events: seq<UiEvent>): (r: Session)
    ensures |s.chat.history| <= |r.chat.history| <= |s.chat.history| + |events|
    ensures r.pending <= s.pending + |events|
    decreases |events|
  {
    if events == [] then s else Run(Deliver(s, events[0]), events[1..])
  }

  /** User and bot turns alternate, starting with a user turn. */
  predicate Alternating(history: seq<Turn>) {
    forall i :: 0 <= i < |history| ==> (history[i].UserTurn? <==> i % 2 == 0)
  }

  /** The session invariant under the send guard: turns alternate, a call is
      pending exactly when the last turn is a user turn, and `loading` says
      whether one is. */
  predicate Coherent(s: Session) {
    && Alternating(s.chat.history)
    && s.pending == |s.chat.history| % 2
    && (s.chat.loading <==> s.pending == 1)
  }

  lemma DeliverKeepsCoherent(s: Session, e: UiEvent)
    requires Coherent(s)
    ensures Coherent(Deliver(s, e))
    ensures |Deliver(s, e).chat.history| <= |s.chat.history| + 1
    ensures Deliver(s, e).chat.history[..|s.chat.history|] == s.chat.history
  {
    var h := s.chat.history;
    var h' := Deliver(s, e).chat.history;
    assert h' == h || exists t :: h' == h + [t];
    if h' != h {
      forall i | 0 <= i < |h'|
        ensures h'[i].UserTurn? <==> i % 2 == 0
      {
        if i < |h| { assert h'[i] == h[i]; }
      }
    }
  }

  /** Whatever the user does, however the calls settle: the history only
      grows at its end, its turns alternate, and at most one call is pending. */
  lemma {:induction false} RunKeepsCoherent(s: Session, events: seq<UiEvent>)
    requires Coherent(s)
    ensures var t := Run(s, events);
      Coherent(t) && t.pending <= 1
      && |s.chat.history| <= |t.chat.history|
      && t.chat.history[..|s.chat.history|] == s.chat.history
    decreases |events|
  {
    if events != [] {
      var s' := Deliver(s, events[0]);
      DeliverKeepsCoherent(s, events[0]);
      RunKeepsCoherent(s', events[1..]);
      var t := Run(s', events[1..]);
      assert t.chat.history[..|s.chat.history|] == t.chat.history[..|s'.chat.history|][..|s.chat.history|];
    }
  }

  /** No turn of the history is the connection apology. */
  predicate NoApology(history: seq<Turn>) {
    forall i :: 0 <= i < |history| ==> history[i] != BotTurn(Plain(CONNECTION_APOLOGY))
  }

  /** An outcome this application's gateway produces: `getAssistantResponse`
      catches every failure of the model call itself, so its promise always
      resolves, with what it returns for some key and some model reply. */
  ghost predicate FromGateway(outcome: CallOutcome) {
    exists apiKey: string, reply: GeminiService.ModelReply ::
      outcome == Resolved(GeminiService.GetAssistantResponse(apiKey, reply))
  }

  /** Every call in the run settles as the gateway settles it. */
  ghost predicate SettledByGateway(events: seq<UiEvent>) {
    forall i :: 0 <= i < |events| && events[i].Settled? ==> FromGateway(events[i].outcome)
  }

  /** Whatever the user does, when every call settles as the gateway settles
      it, the apology never enters the history: only a rejected call, which
      the gateway never makes, would put it there. */
  lemma {:induction false} GatewayRunNeverApologises(s: Session, events: seq<UiEvent>)
    requires NoApology(s.chat.history) && SettledByGateway(events)
    ensures NoApology(Run(s, events).chat.history)
    decreases |events|
  {
    if events != [] {
      var e := events[0];
      var s' := Deliver(s, e);
      if e.Settled? && s.pending > 0 {
        assert FromGateway(e.outcome);
        assert e.outcome.Resolved?;
        assert s'.chat.history == s.chat.history + [BotTurn(Structured(e.outcome.response))];
      }
      assert NoApology(s'.chat.history);
      assert forall i :: 0 <= i < |events[1..]| ==> events[1..][i] == events[i + 1];
      GatewayRunNeverApologises(s', events[1..]);
    }
  }

  /** A call that is rejected while pending is answered by the apology. */
  lemma RejectionApologises(s: Session)
    requires s.pending > 0
    ensures !NoApology(Deliver(s, Settled(Rejected)).chat.history)
  {
    var h := Deliver(s, Settled(Rejected)).chat.history;
    assert h[|h| - 1] == BotTurn(Plain(CONNECTION_APOLOGY));
  }

  lemma InitialSessionCoherent()
    ensures Coherent(Session(INITIAL_CHAT, 0))
  {
  }

  /** "a" is sent; "b" is typed and sent before the answer arrives. The
      second press meets a disabled button, and once the first call settles
      the history is exactly the question and its answer. */
  lemma SecondSendWhileLoadingIgnored(outcome: CallOutcome)
    ensures var s := Run(Session(INITIAL_CHAT, 0),
                         [Typed("a"), SendPressed, Typed("b"), SendPressed, Settled(outcome)]);
      s.chat.history == [UserTurn("a"), BotTurn(BotReply(outcome))]
      && s.chat.input == "b" && !s.chat.loading && s.pending == 0
  {
    assert !IsBlank("a") by { BlankIffAllWhitespace("a"); }
    var s0 := Session(INITIAL_CHAT, 0);
    var s1 := Deliver(s0, Typed("a"));
    var s2 := Deliver(s1, SendPressed);
    assert s2 == Session(Chat("", true, [UserTurn("a")]), 1);
    var s3 := Deliver(s2, Typed("b"));
    var s4 := Deliver(s3, SendPressed);
    assert s4 == s3;
    var s5 := Deliver(s4, Settled(outcome));
    var events := [Typed("a"), SendPressed, Typed("b"), SendPressed, Settled(outcome)];
    assert Run(s0, events) == Run(s1, events[1..]);
    assert Run(s1, events[1..]) == Run(s2, events[2..]);
    assert Run(s2, events[2..]) == Run(s3, events[3..]);
    assert Run(s3, events[3..]) == Run(s4, events[4..]);
    assert Run(s4, events[4..]) == Run(s5, []);
  }

  /** Without the button's guard the handler does not serialise requests:
      two submits in a row leave two user turns side by side. */
  lemma HandlerAloneDoesNotSerialise()
    ensures var c1 := SubmitStep(Chat("a", false, [])).0;
      var c2 := SubmitStep(SetInputStep(c1, "b")).0;
      c2.history == [UserTurn("a"), UserTurn("b")] && !Alternating(c2.history)
  {
    assert !IsBlank("a") by { BlankIffAllWhitespace("a"); }
    assert !IsBlank("b") by { BlankIffAllWhitespace("b"); }
    var c2 := SubmitStep(SetInputStep(SubmitStep(Chat("a", false, [])).0, "b")).0;
    assert c2.history[1].UserTurn?;
  }

  // ---------------------------------------------------------------------
  // The drawer's state
  // ---------------------------------------------------------------------

  class Drawer {
    var input: string
    var loading: bool
    var history: seq<Turn>

    function Snapshot(): Chat
      reads this
    {
      Chat(input, loading, history)
    }

    constructor ()
      ensures Snapshot() == INITIAL_CHAT
    {
      input, loading, history := "", false, [];
    }

    /** The handler up to its `await`; `sent` is the message handed to the
        gateway, `None` when the handler returned early. */
    method Submit() returns (sent: Option<string>)
      modifies this
      ensures (Snapshot(), sent) == SubmitStep(old(Snapshot()))
    {
      if IsBlank(input) {
        return None;
      }
      var userMsg := input;
      input := "";
      history := history + [UserTurn(userMsg)];
      loading := true;
      sent := Some(userMsg);
    }

    /** The handler after its `await`. */
    method Resolve(outcome: CallOutcome)
      modifies this
      ensures Snapshot() == ResolveStep(old(Snapshot()), outcome)
    {
      match outcome {
        case Resolved(response) =>
          history := history + [BotTurn(Structured(response))];
        case Rejected =>
          history := history + [BotTurn(Plain(CONNECTION_APOLOGY))];
      }
      loading := false;
    }

    method SetInput(text: string)
      modifies this
      ensures Snapshot() == SetInputStep(old(Snapshot()), text)
    {
      input := text;
    }

    /** The `disabled` attribute of the send button, negated. */
    method CanSend() returns (enabled: bool)
      ensures enabled <==> !AllWhitespace(input) && !loading
    {
      BlankIffAllWhitespace(input);
      enabled := !IsBlank(input) && !loading;
    }
  }

  /** A question answered through the gateway, driven through the drawer. */
  method Conversation(apiKey: string, reply: GeminiService.ModelReply)
  {
    var d := new Drawer();
    d.SetInput("help");
    assert !IsBlank("help") by { BlankIffAllWhitespace("help"); }
    var sent := d.Submit();
    assert sent == Some("help") && d.loading;
    var answer := GeminiService.GetAssistantResponse(apiKey, reply);
    d.Resolve(Resolved(answer));
    assert d.history == [UserTurn("help"), BotTurn(Structured(answer))];
    assert !d.loading;
  }

  // ---------------------------------------------------------------------
  // renderBotResponse
  // ---------------------------------------------------------------------

  /** A checklist entry as shown: its label and at most one hint. */
  datatype ChecklistRow = ChecklistRow(labelText: string, hint: Option<string>)

  /** The blocks of a rendered answer, in the order the markup lays them out. */
  datatype Section =
    | StepsSection(steps: seq<FlowStep>)
    | ChecklistSection(rows: seq<ChecklistRow>)
    | ActionsSection(labels: seq<string>)
    | FollowUpsSection(questions: seq<string>)
    | TextSection(text: string)

  const DEFAULT_TEXT := "I found this information for you."

  /** `xs && xs.length > 0` */
  predicate Listed<T>(xs: Option<seq<T>>) {
    xs.Some? && |xs.value| > 0
  }

  /** Only the first hint is shown, and only when there is one. */
  function FirstHint(item: ChecklistItem): (h: Option<string>)
    ensures h.Some? <==> |item.hints| > 0
    ensures h.Some? ==> h.value == item.hints[0]
  {
    if |item.hints| > 0 then Some(item.hints[0]) else None
  }

  function ChecklistRows(items: seq<ChecklistItem>): seq<ChecklistRow> {
    seq(|items|, i requires 0 <= i < |items| => ChecklistRow(items[i].labelText, FirstHint(items[i])))
  }

  function ActionLabels(actions: seq<SuggestedAction>): seq<string> {
    seq(|actions|, i requires 0 <= i < |actions| => actions[i].labelText)
  }

  /** Each list block appears when its list is present and non-empty. The
      text block appears when the steps and the checklist are both absent
      (present but empty does not count), showing the uncertainty
      explanation or a default sentence. */
  function RenderBotResponse(res: AssistantResponse): (r: seq<Section>)
    ensures |r| <= 5
    ensures (|r| > 0 && r[|r| - 1].TextSection?) <==> res.stepByStepFlow.None? && res.checklist.None?
  {
    (if Listed(res.stepByStepFlow) then [StepsSection(res.stepByStepFlow.value)] else [])
    + (if Listed(res.checklist) then [ChecklistSection(ChecklistRows(res.checklist.value))] else [])
    + (if Listed(res.suggestedActions) then [ActionsSection(ActionLabels(res.suggestedActions.value))] else [])
    + (if Listed(res.followUpQuestions) then [FollowUpsSection(res.followUpQuestions.value)] else [])
    + (if res.stepByStepFlow.None? && res.checklist.None?
       then [TextSection(OrDefault(res.uncertaintyExplanation, DEFAULT_TEXT))] else [])
  }

  /** The position of a kind of block in the layout. */
  function Rank(s: Section): nat {
    match s
    case StepsSection(_) => 0
    case ChecklistSection(_) => 1
    case ActionsSection(_) => 2
    case FollowUpsSection(_) => 3
    case TextSection(_) => 4
  }

  /** Blocks come in layout order, each kind at most once. */
  lemma RenderOrdered(res: AssistantResponse)
    ensures var r := RenderBotResponse(res);
      forall i, j :: 0 <= i < j < |r| ==> Rank(r[i]) < Rank(r[j])
  {
    var a := if Listed(res.stepByStepFlow) then [StepsSection(res.stepByStepFlow.value)] else [];
    var b := if Listed(res.checklist) then [ChecklistSection(ChecklistRows(res.checklist.value))] else [];
    var c := if Listed(res.suggestedActions) then [ActionsSection(ActionLabels(res.suggestedActions.value))] else [];
    var d := if Listed(res.followUpQuestions) then [FollowUpsSection(res.followUpQuestions.value)] else [];
    var e := if res.stepByStepFlow.None? && res.checklist.None?
      then [TextSection(OrDefault(res.uncertaintyExplanation, DEFAULT_TEXT))] else [];
    var r := RenderBotResponse(res);
    assert r == a + b + c + d + e;
    forall i, j | 0 <= i < j < |r| ensures Rank(r[i]) < Rank(r[j]) {
      SortedByBlocks(a, b, c, d, e, i, j);
    }
  }

  /** Five blocks of at most one section each, with ranks 0 to 4 in turn. */
  lemma SortedByBlocks(a: seq<Section>, b: seq<Section>, c: seq<Section>, d: seq<Section>,
                       e: seq<Section>, i: int, j: int)
    requires |a| <= 1 && |b| <= 1 && |c| <= 1 && |d| <= 1 && |e| <= 1
    requires forall x :: x in a ==> Rank(x) == 0
    requires forall x :: x in b ==> Rank(x) == 1
    requires forall x :: x in c ==> Rank(x) == 2
    requires forall x :: x in d ==> Rank(x) == 3
    requires forall x :: x in e ==> Rank(x) == 4
    requires 0 <= i < j < |a + b + c + d + e|
    ensures Rank((a + b + c + d + e)[i]) < Rank((a + b + c + d + e)[j])
  {
    var r := a + b + c + d + e;
    assert forall k :: 0 <= k < |r| ==> r[k] in a + b + c + d + e;
    if i < |a| {
      assert r[i] in a;
      assert j >= |a| ==> r[j] in b + c + d + e;
    } else if i < |a| + |b| {
      assert r[i] == b[i - |a|];
      assert r[j] in c + d + e;
    } else if i < |a| + |b| + |c| {
      assert r[i] == c[i - |a| - |b|];
      assert r[j] in d + e;
    } else {
      assert r[i] == d[i - |a| - |b| - |c|];
      assert r[j] == e[j - |a| - |b| - |c| - |d|];
    }
  }

  /** The steps block shows exactly the steps, and appears iff they are
      present and non-empty; likewise for the follow-up questions. */
  lemma RenderListBlocks(res: AssistantResponse)
    ensures var r := RenderBotResponse(res);
      && (Listed(res.stepByStepFlow) <==> exists s :: s in r && s.StepsSection?)
      && (forall s :: s in r && s.StepsSection? ==> Some(s.steps) == res.stepByStepFlow)
      && (Listed(res.followUpQuestions) <==> exists s :: s in r && s.FollowUpsSection?)
      && (forall s :: s in r && s.FollowUpsSection? ==> Some(s.questions) == res.followUpQuestions)
  {
    var r := RenderBotResponse(res);
    if Listed(res.stepByStepFlow) {
      assert StepsSection(res.stepByStepFlow.value) in r;
    }
    if Listed(res.followUpQuestions) {
      assert FollowUpsSection(res.followUpQuestions.value) in r;
    }
  }

  /** The checklist block appears iff the checklist is present and non-empty;
      row for row it shows each label and that entry's first hint, if any. */
  lemma RenderChecklistBlock(res: AssistantResponse)
    ensures var r := RenderBotResponse(res);
      && (Listed(res.checklist) <==> exists s :: s in r && s.ChecklistSection?)
      && (forall s :: s in r && s.ChecklistSection? ==>
            && |s.rows| == |res.checklist.value|
            && forall k :: 0 <= k < |s.rows| ==>
                 && s.rows[k].labelText == res.checklist.value[k].labelText
                 && (s.rows[k].hint.Some? <==> |res.checklist.value[k].hints| > 0)
                 && (s.rows[k].hint.Some? ==> s.rows[k].hint.value == res.checklist.value[k].hints[0]))
  {
    var r := RenderBotResponse(res);
    if Listed(res.checklist) {
      var x := ChecklistSection(ChecklistRows(res.checklist.value));
      assert x in r;
    }
  }

  /** The actions block appears iff actions are present and non-empty, one
      button per action, labelled as the action. */
  lemma RenderActionsBlock(res: AssistantResponse)
    ensures var r := RenderBotResponse(res);
      && (Listed(res.suggestedActions) <==> exists s :: s in r && s.ActionsSection?)
      && (forall s :: s in r && s.ActionsSection? ==>
            && |s.labels| == |res.suggestedActions.value|
            && forall k :: 0 <= k < |s.labels| ==> s.labels[k] == res.suggestedActions.value[k].labelText)
  {
    var r := RenderBotResponse(res);
    if Listed(res.suggestedActions) {
      var x := ActionsSection(ActionLabels(res.suggestedActions.value));
      assert x in r;
    }
  }

  /** The text block appears iff the steps and the checklist are both
      absent, and shows the explanation, or the default when the
      explanation is missing or empty. */
  lemma RenderTextBlock(res: AssistantResponse)
    ensures var r := RenderBotResponse(res);
      && (res.stepByStepFlow.None? && res.checklist.None? <==> exists s :: s in r && s.TextSection?)
      && (forall s :: s in r && s.TextSection? ==>
            s.text == if res.uncertaintyExplanation.Some? && res.uncertaintyExplanation.value != ""
                      then res.uncertaintyExplanation.value else DEFAULT_TEXT)
  {
    var r := RenderBotResponse(res);
    if res.stepByStepFlow.None? && res.checklist.None? {
      var x := TextSection(OrDefault(res.uncertaintyExplanation, DEFAULT_TEXT));
      assert x in r;
    }
  }

  /** Absent and empty differ: an answer with empty step and checklist lists
      and nothing else renders no block at all, while the same answer
      without those lists shows the default sentence. */
  lemma EmptyListsRenderNothing(intent: string, confidence: real)
    ensures RenderBotResponse(AssistantResponse(intent, confidence, None, Some([]), Some([]), None, None)) == []
    ensures RenderBotResponse(AssistantResponse(intent, confidence, None, None, None, None, None))
         == [TextSection(DEFAULT_TEXT)]
  {
  }

  /** The gateway's fallbacks as the drawer shows them: without a key, only
      the explanation (its empty action list stays hidden); after an error,
      the Retry button and the explanation. */
  lemma FallbacksRender()
    ensures RenderBotResponse(GeminiService.NO_KEY_RESPONSE)
         == [TextSection(GeminiService.NO_KEY_EXPLANATION)]
    ensures RenderBotResponse(GeminiService.ERROR_RESPONSE)
         == [ActionsSection(["Retry"]), TextSection(GeminiService.ERROR_EXPLANATION)]
  {
    assert ActionLabels([GeminiService.RETRY_ACTION]) == ["Retry"];
  }
}
