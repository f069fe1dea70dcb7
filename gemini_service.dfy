/** The assistant gateway: what `getAssistantResponse` sends and what it
    hands back for each way the remote call can go. The remote model itself
    is outside the model; its answer arrives as a `ModelReply` value. */
module GeminiService {
  import opened Types
  import opened Text

  const MODEL := "gemini-2.5-flash"

  /** The context object the caller passes in (typed `any`): each field may
      be missing. */
  datatype AssistantContext = AssistantContext(
    screen: string,
    goalTitle: Option<string>,
    dayNumber: Option<int>,
    topics: Option<string>)

  datatype ModelRequest = ModelRequest(model: string, contents: string, systemInstruction: string)

  /** How the remote call ended: it threw, or it returned a text together
      with what `JSON.parse` makes of that text (`None` when parsing throws).
      A missing text is the empty one here. */
  datatype ModelReply = CallFailed | Replied(text: string, parsed: Option<AssistantResponse>)

  const NO_KEY_EXPLANATION := "API Key is missing. Please set process.env.API_KEY."
  const ERROR_EXPLANATION := "I encountered an error processing your request."

  const NO_KEY_RESPONSE := AssistantResponse(
    "NO_API_KEY", 0.0, Some(NO_KEY_EXPLANATION), None, None, Some([]), None)

  const RETRY_ACTION := SuggestedAction("Retry", "RETRY", "")

  const ERROR_RESPONSE := AssistantResponse(
    "ERROR", 0.0, Some(ERROR_EXPLANATION), None, None, Some([RETRY_ACTION]), None)

  /** `${x || 0}` for a number: a missing day reads as 0 (a day of 0 stays 0). */
  function DayText(day: Option<int>): (r: string)
    ensures day.None? || day == Some(0) ==> r == "0"
    ensures day.Some? ==> r == IntToString(day.value)
  {
    match day
    case Some(n) => IntToString(n)
    case None => "0"
  }

  function GoalText(ctx: AssistantContext): string {
    OrDefault(ctx.goalTitle, "None selected")
  }

  function TopicsText(ctx: AssistantContext): string {
    OrDefault(ctx.topics, "General learning")
  }

  /** The fixed text of the system instruction, cut where the template
      literal inserts a value; each inserted value travels with the words
      that introduce it. */
  const INTRO := "You are the SpotifyLearn Assistant. \n    Context: The user is currently "
  const INDENT := "    "
  const ROLE := "    \n"
    + "    Your role is to help the user with their learning journey, troubleshoot issues, "
    + "or explain concepts from the audio pack.\n"
    + "    Always return a structured JSON response matching the schema provided.\n"
    + "    If the user asks about the specific content of the lesson, use your general knowledge "
    + "to simulate a helpful answer about "

  function ScreenLine(ctx: AssistantContext): string {
    "on screen: " + ctx.screen + ". \n"
  }

  function GoalLine(ctx: AssistantContext): string {
    "Goal: " + GoalText(ctx) + ". \n"
  }

  function DayLine(ctx: AssistantContext): string {
    "Day: " + DayText(ctx.dayNumber) + ".\n"
  }

  function TopicsLine(ctx: AssistantContext): string {
    "the topics: " + TopicsText(ctx) + ".\n"
  }

  /** The system instruction of the template literal. */
  function SystemInstruction(ctx: AssistantContext): (r: string)
    ensures |INTRO| <= |r| && r[..|INTRO|] == INTRO
  {
    Layout(INTRO, ScreenLine(ctx), INDENT, GoalLine(ctx), DayLine(ctx), ROLE, TopicsLine(ctx))
  }

  /** The shape of the template: the fixed introduction, then the context
      lines separated by the fixed indentation and role text. */
  function Layout(intro: string, a1: string, indent: string, a2: string, a3: string,
                  role: string, a4: string): (r: string)
    ensures |intro| <= |r| && r[..|intro|] == intro
  {
    var rest := a1 + indent + a2 + indent + a3 + role + a4 + indent;
    assert intro + a1 + indent + a2 + indent + a3 + role + a4 + indent == intro + rest;
    intro + a1 + indent + a2 + indent + a3 + role + a4 + indent
  }

  /** The instruction carries the screen, the goal title (or 'None selected'),
      the day (or 0) and the topics (or 'General learning'). */
  lemma InstructionMentionsContext(ctx: AssistantContext)
    ensures var r := SystemInstruction(ctx);
      && Occurs("on screen: " + ctx.screen + ". \n", r)
      && Occurs("Goal: " + OrDefault(ctx.goalTitle, "None selected") + ". \n", r)
      && Occurs("Day: " + DayText(ctx.dayNumber) + ".\n", r)
      && Occurs("the topics: " + OrDefault(ctx.topics, "General learning") + ".\n", r)
  {
    PiecesOccur(INTRO, ScreenLine(ctx), INDENT, GoalLine(ctx), DayLine(ctx), ROLE, TopicsLine(ctx));
  }

  /** The four inserted lines of a text laid out as the instruction is. */
  lemma PiecesOccur(intro: string, a1: string, indent: string, a2: string, a3: string,
                    role: string, a4: string)
    ensures var r := intro + a1 + indent + a2 + indent + a3 + role + a4 + indent;
      Occurs(a1, r) && Occurs(a2, r) && Occurs(a3, r) && Occurs(a4, r)
  {
    var r := intro + a1 + indent + a2 + indent + a3 + role + a4 + indent;
    assert r == intro + a1 + (indent + a2 + indent + a3 + role + a4 + indent);
    OccursBetween(intro, a1, indent + a2 + indent + a3 + role + a4 + indent);
    assert r == (intro + a1 + indent) + a2 + (indent + a3 + role + a4 + indent);
    OccursBetween(intro + a1 + indent, a2, indent + a3 + role + a4 + indent);
    assert r == (intro + a1 + indent + a2 + indent) + a3 + (role + a4 + indent);
    OccursBetween(intro + a1 + indent + a2 + indent, a3, role + a4 + indent);
    OccursBetween(intro + a1 + indent + a2 + indent + a3 + role, a4, indent);
  }

  /** Without a key no request is made; with one, the user's message goes out
      as it was typed, with the instruction built from the context. */
  function PlanRequest(apiKey: string, userMessage: string, ctx: AssistantContext): (r: Option<ModelRequest>)
    ensures r.None? <==> apiKey == ""
    ensures r.Some? ==> r.value.contents == userMessage && r.value.model == MODEL
    ensures r.Some? ==> r.value.systemInstruction == SystemInstruction(ctx)
  {
    if apiKey == "" then None else Some(ModelRequest(MODEL, userMessage, SystemInstruction(ctx)))
  }

  /** The reply ended in the `catch`: the call threw, the text was empty
      (`throw new Error(...)`), or parsing threw. */
  predicate ReplyFails(reply: ModelReply) {
    reply.CallFailed? || reply.text == "" || reply.parsed.None?
  }

  /** `getAssistantResponse`: always a response, never a rejection. */
  function GetAssistantResponse(apiKey: string, reply: ModelReply): (r: AssistantResponse)
    ensures apiKey == "" ==>
      r.intentDetected == "NO_API_KEY" && r.confidence == 0.0 && r.suggestedActions == Some([])
    ensures apiKey != "" && ReplyFails(reply) ==>
      && r.intentDetected == "ERROR" && r.confidence == 0.0
      && r.suggestedActions == Some([SuggestedAction("Retry", "RETRY", "")])
    ensures apiKey != "" && !ReplyFails(reply) ==> r == reply.parsed.value
  {
    if apiKey == "" then NO_KEY_RESPONSE
    else match reply
      case CallFailed => ERROR_RESPONSE
      case Replied(text, parsed) =>
        if text == "" then ERROR_RESPONSE
        else match parsed
          case None => ERROR_RESPONSE
          case Some(response) => response
  }

  /** The two fallbacks are told apart from each other by their intent, and
      a parsed reply passes unchanged, whatever it says: nothing checks it. */
  lemma FallbacksAreDistinct(apiKey: string, reply: ModelReply)
    ensures var r := GetAssistantResponse(apiKey, reply);
      && (r.intentDetected == "NO_API_KEY" && !ReplyFails(reply) && apiKey != "" ==>
            reply.parsed.value.intentDetected == "NO_API_KEY")
      && (apiKey == "" ==> r == NO_KEY_RESPONSE)
      && (apiKey != "" && ReplyFails(reply) ==> r == ERROR_RESPONSE)
    ensures NO_KEY_RESPONSE.intentDetected != ERROR_RESPONSE.intentDetected
  {
  }
}
