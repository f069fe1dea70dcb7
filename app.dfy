/** The skill-builder flow: a four-screen state machine holding the user, the
    progress record, the chosen goal and whether the assistant is open; the
    context it hands to the assistant; and what each screen renders. The
    outer application only switches between the music home and this flow. */
module App {
  import opened Types
  import opened Text
  import opened Constants
  import GeminiService

  datatype Screen = GoalSelection | Progress | DailyPackScreen | LessonSheetScreen

  /** The string each screen is known by (the `SkillBuilderScreen` union). */
  function ScreenName(s: Screen): (name: string)
    ensures |name| > 0
  {
    match s
    case GoalSelection => "GOAL_SELECTION"
    case Progress => "PROGRESS"
    case DailyPackScreen => "DAILY_PACK"
    case LessonSheetScreen => "LESSON_SHEET"
  }

  /** Distinct screens are known by distinct names. */
  lemma ScreenNamesDistinct(a: Screen, b: Screen)
    ensures ScreenName(a) == ScreenName(b) <==> a == b
  {
  }

  datatype FlowState = FlowState(
    screen: Screen,
    user: User,
    progress: UserProgress,
    currentGoalId: Option<string>,
    isAssistantOpen: bool)

  /** `GOALS.find(g => g.id === currentGoalId)`: a goal whose id is the
      chosen one, or none when no goal has it; no goal matches a missing id. */
  function FindGoal(goals: seq<Goal>, id: Option<string>): (r: Option<Goal>)
    ensures r.Some? ==> r.value in goals && id == Some(r.value.id)
    ensures r.None? <==> forall k :: 0 <= k < |goals| ==> id != Some(goals[k].id)
    decreases |goals|
  {
    if |goals| == 0 then None
    else if id == Some(goals[0].id) then Some(goals[0])
    else
      assert forall k :: 1 <= k < |goals| ==> goals[k] == goals[1..][k - 1];
      FindGoal(goals[1..], id)
  }

  /** The goal found is the first one with the chosen id. */
  lemma {:induction false} FindGoalFirst(goals: seq<Goal>, id: Option<string>, k: nat)
    requires k < |goals| && id == Some(goals[k].id)
    requires forall j :: 0 <= j < k ==> id != Some(goals[j].id)
    ensures FindGoal(goals, id) == Some(goals[k])
    decreases k
  {
    if k > 0 {
      assert goals[1..][k - 1] == goals[k];
      assert forall j :: 0 <= j < k - 1 ==> goals[1..][j] == goals[j + 1];
      FindGoalFirst(goals[1..], id, k - 1);
    }
  }

  /** The three fixture goals are found by their ids, and nothing else is. */
  lemma FindFixtureGoals(id: string)
    ensures FindGoal(GOALS, Some(GOAL_ENGLISH_ID)) == Some(GOALS[0])
    ensures FindGoal(GOALS, Some("goal_focus")) == Some(GOALS[1])
    ensures FindGoal(GOALS, Some("goal_music")) == Some(GOALS[2])
    ensures FindGoal(GOALS, None) == None
    ensures FindGoal(GOALS, Some(id)).Some? <==> id in {GOAL_ENGLISH_ID, "goal_focus", "goal_music"}
  {
    GoalIdsDistinct();
    assert GOALS[1].id == "goal_focus" && GOALS[2].id == "goal_music";
    FindGoalFirst(GOALS, Some(GOAL_ENGLISH_ID), 0);
    FindGoalFirst(GOALS, Some("goal_focus"), 1);
    FindGoalFirst(GOALS, Some("goal_music"), 2);
    if FindGoal(GOALS, Some(id)).None? {
      assert id != GOALS[0].id && id != GOALS[1].id && id != GOALS[2].id;
    }
  }

  const INITIAL_FLOW := FlowState(GoalSelection, CURRENT_USER, INITIAL_PROGRESS, None, false)

  // ---------------------------------------------------------------------
  // The handlers
  // ---------------------------------------------------------------------

  /** `handleGoalSelect`: the goal is recorded in the flow and in the user,
      and the progress screen shows; progress and the drawer are untouched. */
  function AfterGoalSelect(st: FlowState, goalId: string): (r: FlowState)
    ensures r.screen == Progress && r.currentGoalId == Some(goalId)
    ensures r.user == st.user.(currentGoalId := Some(goalId))
    ensures r.progress == st.progress && r.isAssistantOpen == st.isAssistantOpen
  {
    st.(screen := Progress, currentGoalId := Some(goalId),
        user := st.user.(currentGoalId := Some(goalId)))
  }

  /** `handleStartDailyPack`: only the screen changes, to the pack. */
  function AfterStartDailyPack(st: FlowState): (r: FlowState)
    ensures r.screen == DailyPackScreen
    ensures r.user == st.user && r.progress == st.progress
    ensures r.currentGoalId == st.currentGoalId && r.isAssistantOpen == st.isAssistantOpen
  {
    st.(screen := DailyPackScreen)
  }

  function Min(a: real, b: real): real {
    if a <= b then a else b
  }

  /** One more day and one more streak day; the completion ratio grows by
      0.05 and is capped at 1. */
  function PackCompleted(p: UserProgress): (r: UserProgress)
    ensures r.userId == p.userId
    ensures r.daysCompleted == p.daysCompleted + 1 && r.currentStreak == p.currentStreak + 1
    ensures r.percentComplete <= 1.0
    ensures r.percentComplete == 1.0 <==> p.percentComplete >= 0.95
    ensures 0.0 <= p.percentComplete ==> 0.0 <= r.percentComplete
    ensures p.percentComplete <= 1.0 ==> p.percentComplete <= r.percentComplete
  {
    p.(daysCompleted := p.daysCompleted + 1,
       percentComplete := Min(1.0, p.percentComplete + 0.05),
       currentStreak := p.currentStreak + 1)
  }

  /** `handlePackComplete`: the day is counted and the lesson sheet shows;
      goal, user and drawer are untouched. */
  function AfterPackComplete(st: FlowState): (r: FlowState)
    ensures r.screen == LessonSheetScreen
    ensures r.progress.daysCompleted == st.progress.daysCompleted + 1
    ensures r.progress.currentStreak == st.progress.currentStreak + 1
    ensures r.user == st.user && r.currentGoalId == st.currentGoalId
    ensures r.isAssistantOpen == st.isAssistantOpen
  {
    st.(progress := PackCompleted(st.progress), screen := LessonSheetScreen)
  }

  /** `handleFinishLesson`: only the screen changes, back to progress. */
  function AfterFinishLesson(st: FlowState): (r: FlowState)
    ensures r.screen == Progress
    ensures r.user == st.user && r.progress == st.progress
    ensures r.currentGoalId == st.currentGoalId && r.isAssistantOpen == st.isAssistantOpen
  {
    st.(screen := Progress)
  }

  /** `handleChangeGoal`: back to the goal list with no goal chosen; the
      user record keeps the goal it had. */
  function AfterChangeGoal(st: FlowState): (r: FlowState)
    ensures r.screen == GoalSelection && r.currentGoalId == None
    ensures r.user == st.user && r.progress == st.progress
    ensures r.isAssistantOpen == st.isAssistantOpen
  {
    st.(screen := GoalSelection, currentGoalId := None)
  }

  /** The drawer's `onOpen` and `onClose`: only the flag changes. */
  function AfterSetAssistantOpen(st: FlowState, open: bool): (r: FlowState)
    ensures r.isAssistantOpen == open
    ensures r.screen == st.screen && r.user == st.user && r.progress == st.progress
    ensures r.currentGoalId == st.currentGoalId
  {
    st.(isAssistantOpen := open)
  }

  /** `n` packs completed in a row. */
  function CompleteTimes(p: UserProgress, n: nat): UserProgress
    decreases n
  {
    if n == 0 then p else PackCompleted(CompleteTimes(p, n - 1))
  }

  /** After `n` completions the counters have grown by `n` and the ratio is
      the starting one plus 0.05 per completion, capped at 1. */
  lemma {:induction false} CompleteTimesFacts(p: UserProgress, n: nat)
    requires p.percentComplete <= 1.0
    ensures var r := CompleteTimes(p, n);
      && r.daysCompleted == p.daysCompleted + n
      && r.currentStreak == p.currentStreak + n
      && r.percentComplete == Min(1.0, p.percentComplete + 0.05 * n as real)
    decreases n
  {
    if n > 0 {
      CompleteTimesFacts(p, n - 1);
    }
  }

  /** From the fixture progress (0.2), the ratio is full exactly from the
      16th completion on; the 15th leaves it at 0.95. */
  lemma FixtureReachesFullOnSixteenth(n: nat)
    ensures CompleteTimes(INITIAL_PROGRESS, n).percentComplete == 1.0 <==> n >= 16
    ensures n == 15 ==> CompleteTimes(INITIAL_PROGRESS, n).percentComplete == 0.95
    ensures CompleteTimes(INITIAL_PROGRESS, n).daysCompleted == 6 + n
  {
    CompleteTimesFacts(INITIAL_PROGRESS, n);
  }

  /** Choosing a goal records it in both places; changing the goal clears
      only the flow's copy; neither touches the progress record. Finishing
      the lesson touches nothing but the screen. */
  lemma {:induction false} GoalHandlers(st: FlowState, goalId: string)
    ensures var g := AfterGoalSelect(st, goalId);
      g.currentGoalId == g.user.currentGoalId == Some(goalId) && g.progress == st.progress
    ensures var c := AfterChangeGoal(AfterGoalSelect(st, goalId));
      && c.screen == GoalSelection && c.currentGoalId == None
      && c.user.currentGoalId == Some(goalId) && c.progress == st.progress
    ensures AfterFinishLesson(AfterPackComplete(st)).progress == PackCompleted(st.progress)
  {
  }

  // ---------------------------------------------------------------------
  // The assistant's context
  // ---------------------------------------------------------------------

  const ENGLISH_TOPICS := "Vocabulary, Persistence, Professionalism"
  const OTHER_TOPICS := "General"

  /** `getContext`: the screen's name, the chosen goal's title when a goal
      matches, the upcoming day, and topics chosen by the goal id alone. */
  function GetContext(st: FlowState): (ctx: GeminiService.AssistantContext)
    ensures ctx.screen == ScreenName(st.screen)
    ensures ctx.dayNumber == Some(st.progress.daysCompleted + 1)
    ensures ctx.topics == Some(ENGLISH_TOPICS) <==> st.currentGoalId == Some(GOAL_ENGLISH_ID)
    ensures ctx.topics == Some(ENGLISH_TOPICS) || ctx.topics == Some(OTHER_TOPICS)
    ensures ctx.goalTitle.None? <==> forall k :: 0 <= k < |GOALS| ==> st.currentGoalId != Some(GOALS[k].id)
    ensures ctx.goalTitle.Some? ==>
      exists k :: 0 <= k < |GOALS| && st.currentGoalId == Some(GOALS[k].id) && ctx.goalTitle.value == GOALS[k].title
  {
    var goal := FindGoal(GOALS, st.currentGoalId);
    GeminiService.AssistantContext(
      ScreenName(st.screen),
      if goal.Some? then Some(goal.value.title) else None,
      Some(st.progress.daysCompleted + 1),
      Some(if st.currentGoalId == Some(GOAL_ENGLISH_ID) then ENGLISH_TOPICS else OTHER_TOPICS))
  }

  /** At start the context names the goal list, no goal, day 7 and the
      general topics. */
  lemma InitialContext()
    ensures GetContext(INITIAL_FLOW) ==
      GeminiService.AssistantContext("GOAL_SELECTION", None, Some(7), Some(OTHER_TOPICS))
  {
    FindFixtureGoals("");
  }

  /** At start the assistant is told the goal list is showing, no goal is
      chosen, today is day 7, and the topics are general. */
  lemma {:induction false} InitialInstruction()
    ensures var r := GeminiService.SystemInstruction(GetContext(INITIAL_FLOW));
      && Occurs("on screen: GOAL_SELECTION. \n", r)
      && Occurs("Goal: None selected. \n", r)
      && Occurs("Day: 7.\n", r)
      && Occurs("the topics: General.\n", r)
  {
    InitialContext();
    InitialInstructionPieces(GetContext(INITIAL_FLOW));
  }

  lemma {:induction false} InitialInstructionPieces(ctx: GeminiService.AssistantContext)
    requires ctx == GeminiService.AssistantContext("GOAL_SELECTION", None, Some(7), Some(OTHER_TOPICS))
    ensures var r := GeminiService.SystemInstruction(ctx);
      && Occurs("on screen: GOAL_SELECTION. \n", r)
      && Occurs("Goal: None selected. \n", r)
      && Occurs("Day: 7.\n", r)
      && Occurs("the topics: General.\n", r)
  {
    assert "on screen: " + "GOAL_SELECTION" + ". \n" == "on screen: GOAL_SELECTION. \n";
    assert "Goal: " + "None selected" + ". \n" == "Goal: None selected. \n";
    assert "Day: " + "7" + ".\n" == "Day: 7.\n";
    assert "the topics: " + "General" + ".\n" == "the topics: General.\n";
    NatToStringParses(7);
    assert GeminiService.DayText(ctx.dayNumber) == "7";
    assert OrDefault(ctx.goalTitle, "None selected") == "None selected";
    assert OrDefault(ctx.topics, "General learning") == OTHER_TOPICS;
    GeminiService.InstructionMentionsContext(ctx);
  }

  /** Once English is chosen, the context names its title and its topics. */
  lemma {:induction false} EnglishContext(st: FlowState)
    ensures var ctx := GetContext(AfterGoalSelect(st, GOAL_ENGLISH_ID));
      && ctx.screen == "PROGRESS"
      && ctx.goalTitle == Some("Improve English")
      && ctx.topics == Some(ENGLISH_TOPICS)
  {
    FindFixtureGoals(GOAL_ENGLISH_ID);
  }

  // ---------------------------------------------------------------------
  // What is rendered
  // ---------------------------------------------------------------------

  datatype View =
    | GoalSelectionView(goals: seq<Goal>)
    | ProgressView(user: User, progress: UserProgress, goal: Goal)
    | DailyPackView(pack: DailyAudioPack, dayCount: int)
    | LessonSheetView(lesson: LessonSheet, quiz: Quiz, dayCount: int)
    | Blank

  /** `renderScreen`. */
  function RenderScreen(st: FlowState): (v: View)
    ensures v.Blank? <==> st.screen == Progress && FindGoal(GOALS, st.currentGoalId).None?
    ensures v.GoalSelectionView? <==> st.screen == GoalSelection
    ensures v.ProgressView? ==> Some(v.goal.id) == st.currentGoalId && v.goal in GOALS
    ensures v.DailyPackView? ==> v.dayCount == st.progress.daysCompleted + 1
    ensures v.LessonSheetView? ==> v.dayCount == st.progress.daysCompleted + 1
  {
    match st.screen
    case GoalSelection => GoalSelectionView(GOALS)
    case Progress =>
      (match FindGoal(GOALS, st.currentGoalId)
       case None => Blank
       case Some(goal) => ProgressView(st.user, st.progress, goal))
    case DailyPackScreen => DailyPackView(MOCK_PACK, st.progress.daysCompleted + 1)
    case LessonSheetScreen => LessonSheetView(MOCK_LESSON, MOCK_QUIZ, st.progress.daysCompleted + 1)
  }

  /** The day header of the pack screen and of the lesson sheet. */
  function PackTitle(dayCount: int): string {
    "Day " + IntToString(dayCount)
  }

  function LessonTitle(dayCount: int): string {
    "Lesson Sheet: Day " + IntToString(dayCount)
  }

  /** Completing the pack counts the day before the lesson sheet is shown,
      so the sheet's day is one more than the pack's, and its header names
      the day after the one the pack screen's header named. */
  lemma {:induction false} LessonDayFollowsPackDay(st: FlowState)
    requires st.screen == DailyPackScreen
    ensures var before := RenderScreen(st);
      var after := RenderScreen(AfterPackComplete(st));
      && before.DailyPackView? && after.LessonSheetView?
      && after.dayCount == before.dayCount + 1
      && LessonTitle(after.dayCount) == "Lesson Sheet: " + PackTitle(before.dayCount + 1)
  {
    var d := st.progress.daysCompleted + 1;
    assert "Lesson Sheet: Day " == "Lesson Sheet: " + "Day ";
    assert LessonTitle(d + 1) == "Lesson Sheet: " + ("Day " + IntToString(d + 1));
  }

  // ---------------------------------------------------------------------
  // What the buttons can reach
  // ---------------------------------------------------------------------

  /** What the user can press. Each handler is wired to exactly one screen:
      the goal cards (with the ids of the goal list) to the goal list, the
      continue and change-goal buttons to the progress screen, `onComplete`
      to the pack screen and `onFinish` to the lesson sheet; the assistant's
      open and close buttons are on every screen. */
  datatype FlowEvent =
    | ChooseGoal(goalId: string)
    | Continue
    | ChangeGoal
    | PackDone
    | LessonDone
    | SetAssistant(open: bool)

  /** Whether the button behind `e` is on the screen `st` renders. */
  predicate Offered(st: FlowState, e: FlowEvent) {
    match e
    case ChooseGoal(id) => st.screen == GoalSelection && FindGoal(GOALS, Some(id)).Some?
    case Continue => st.screen == Progress
    case ChangeGoal => st.screen == Progress
    case PackDone => st.screen == DailyPackScreen
    case LessonDone => st.screen == LessonSheetScreen
    case SetAssistant(_) => true
  }

  /** A press runs the handler its button is wired to; a button that is not
      on the screen cannot be pressed, so nothing changes. */
  function Press(st: FlowState, e: FlowEvent): (r: FlowState)
    ensures !Offered(st, e) ==> r == st
    ensures Offered(st, e) && !e.SetAssistant? ==> r.screen != st.screen
  {
    if !Offered(st, e) then st
    else match e
      case ChooseGoal(id) => AfterGoalSelect(st, id)
      case Continue => AfterStartDailyPack(st)
      case ChangeGoal => AfterChangeGoal(st)
      case PackDone => AfterPackComplete(st)
      case LessonDone => AfterFinishLesson(st)
      case SetAssistant(open) => AfterSetAssistantOpen(st, open)
  }

  function PressAll(st: FlowState, events: seq<FlowEvent>): FlowState
    decreases |events|
  {
    if events == [] then st else PressAll(Press(st, events[0]), events[1..])
  }

  /** The states the buttons reach from the start: the goal list shows
      exactly when no goal is chosen, a chosen goal is one of the list's and
      the user record names it, and the completion ratio is within [0, 1]. */
  predicate Reachable(st: FlowState) {
    && (st.screen == GoalSelection <==> st.currentGoalId.None?)
    && (st.currentGoalId.Some? ==>
          FindGoal(GOALS, st.currentGoalId).Some? && st.user.currentGoalId == st.currentGoalId)
    && 0.0 <= st.progress.percentComplete <= 1.0
  }

  lemma InitialReachable()
    ensures Reachable(INITIAL_FLOW)
  {
  }

  /** Every press keeps the state reachable. */
  lemma {:induction false} PressKeepsReachable(st: FlowState, e: FlowEvent)
    requires Reachable(st)
    ensures Reachable(Press(st, e))
  {
    if Offered(st, e) && e.PackDone? {
      var p := PackCompleted(st.progress);
      assert 0.0 <= p.percentComplete <= 1.0;
    }
  }

  /** Any sequence of presses keeps the state reachable. */
  lemma {:induction false} PressAllKeepsReachable(st: FlowState, events: seq<FlowEvent>)
    requires Reachable(st)
    ensures Reachable(PressAll(st, events))
    decreases |events|
  {
    if events != [] {
      PressKeepsReachable(st, events[0]);
      PressAllKeepsReachable(Press(st, events[0]), events[1..]);
    }
  }

  /** A reachable state always renders a screen, and a progress screen shows
      the chosen goal. */
  lemma {:induction false} ReachableRenders(st: FlowState)
    requires Reachable(st)
    ensures RenderScreen(st) != Blank
    ensures st.screen == Progress ==>
      RenderScreen(st).ProgressView? && RenderScreen(st).goal.id == st.currentGoalId.value
  {
    if st.screen == Progress {
      assert FindGoal(GOALS, st.currentGoalId).Some?;
    }
  }

  /** Whatever the user presses from the start, the flow never renders the
      blank screen. */
  lemma {:induction false} NeverBlank(events: seq<FlowEvent>)
    ensures RenderScreen(PressAll(INITIAL_FLOW, events)) != Blank
  {
    InitialReachable();
    PressAllKeepsReachable(INITIAL_FLOW, events);
    ReachableRenders(PressAll(INITIAL_FLOW, events));
  }

  /** Choosing a goal from the list shows its progress screen, and so does
      coming back to it through the pack and the lesson, one day further on. */
  lemma {:induction false} ChosenGoalRenders(st: FlowState, goalId: string)
    requires Reachable(st) && st.screen == GoalSelection
    requires FindGoal(GOALS, Some(goalId)).Some?
    ensures var chosen := PressAll(st, [ChooseGoal(goalId)]);
      RenderScreen(chosen).ProgressView? && RenderScreen(chosen).goal.id == goalId
    ensures var back := PressAll(st, [ChooseGoal(goalId), Continue, PackDone, LessonDone]);
      && back.screen == Progress
      && RenderScreen(back).ProgressView? && RenderScreen(back).goal.id == goalId
      && back.progress == PackCompleted(st.progress)
  {
    var s1 := Press(st, ChooseGoal(goalId));
    assert s1 == AfterGoalSelect(st, goalId);
    assert PressAll(s1, []) == s1;
    assert [ChooseGoal(goalId)][1..] == [];
    var events := [ChooseGoal(goalId), Continue, PackDone, LessonDone];
    var s2 := Press(s1, Continue);
    var s3 := Press(s2, PackDone);
    var s4 := Press(s3, LessonDone);
    assert s4 == AfterFinishLesson(AfterPackComplete(AfterStartDailyPack(s1)));
    assert events[1..][1..][1..][1..] == [];
    assert PressAll(st, events) == s4 by {
      assert PressAll(s3, events[1..][1..][1..]) == s4;
      assert PressAll(s2, events[1..][1..]) == s4;
      assert PressAll(s1, events[1..]) == s4;
    }
    assert s4.currentGoalId == Some(goalId);
  }

  /** The `null` branch of `renderScreen` is defensive only: a progress
      screen whose goal id matches no goal renders nothing, but no reachable
      state is one. Changing the goal, for instance, clears the id but also
      shows the goal list, where the lesson sheet's finish button is not. */
  lemma {:induction false} DroppedGoalRendersBlank(st: FlowState)
    ensures var dropped := AfterFinishLesson(AfterChangeGoal(st));
      RenderScreen(dropped) == Blank && !Reachable(dropped)
    ensures Press(AfterChangeGoal(st), LessonDone) == AfterChangeGoal(st)
  {
    FindFixtureGoals("");
  }

  // ---------------------------------------------------------------------
  // The component's state
  // ---------------------------------------------------------------------

  class SkillBuilderFlow {
    var screen: Screen
    var user: User
    var progress: UserProgress
    var currentGoalId: Option<string>
    var isAssistantOpen: bool

    function Snapshot(): FlowState
      reads this
    {
      FlowState(screen, user, progress, currentGoalId, isAssistantOpen)
    }

    constructor ()
      ensures Snapshot() == INITIAL_FLOW
    {
      screen := GoalSelection;
      user := CURRENT_USER;
      progress := INITIAL_PROGRESS;
      currentGoalId := None;
      isAssistantOpen := false;
    }

    /** A goal card of the goal list. */
    method HandleGoalSelect(goalId: string)
      requires screen == GoalSelection && FindGoal(GOALS, Some(goalId)).Some?
      requires Reachable(Snapshot())
      modifies this
      ensures Snapshot() == AfterGoalSelect(old(Snapshot()), goalId)
      ensures Reachable(Snapshot())
    {
      ghost var before := Snapshot();
      currentGoalId := Some(goalId);
      user := user.(currentGoalId := Some(goalId));
      screen := Progress;
      PressKeepsReachable(before, ChooseGoal(goalId));
    }

    /** The progress screen's continue button. */
    method HandleStartDailyPack()
      requires screen == Progress && Reachable(Snapshot())
      modifies this
      ensures Snapshot() == AfterStartDailyPack(old(Snapshot()))
      ensures Reachable(Snapshot())
    {
      ghost var before := Snapshot();
      screen := DailyPackScreen;
      PressKeepsReachable(before, Continue);
    }

    /** The pack screen's `onComplete`. */
    method HandlePackComplete()
      requires screen == DailyPackScreen && Reachable(Snapshot())
      modifies this
      ensures Snapshot() == AfterPackComplete(old(Snapshot()))
      ensures Reachable(Snapshot())
    {
      ghost var before := Snapshot();
      var prev := progress;
      progress := prev.(daysCompleted := prev.daysCompleted + 1,
                        percentComplete := Min(1.0, prev.percentComplete + 0.05),
                        currentStreak := prev.currentStreak + 1);
      screen := LessonSheetScreen;
      PressKeepsReachable(before, PackDone);
    }

    /** The lesson sheet's `onFinish`. */
    method HandleFinishLesson()
      requires screen == LessonSheetScreen && Reachable(Snapshot())
      modifies this
      ensures Snapshot() == AfterFinishLesson(old(Snapshot()))
      ensures Reachable(Snapshot())
    {
      ghost var before := Snapshot();
      screen := Progress;
      PressKeepsReachable(before, LessonDone);
    }

    /** The progress screen's change-goal button. */
    method HandleChangeGoal()
      requires screen == Progress && Reachable(Snapshot())
      modifies this
      ensures Snapshot() == AfterChangeGoal(old(Snapshot()))
      ensures Reachable(Snapshot())
    {
      ghost var before := Snapshot();
      screen := GoalSelection;
      currentGoalId := None;
      PressKeepsReachable(before, ChangeGoal);
    }

    /** The drawer's `onOpen` and `onClose`, on every screen. */
    method SetAssistantOpen(open: bool)
      requires Reachable(Snapshot())
      modifies this
      ensures Snapshot() == AfterSetAssistantOpen(old(Snapshot()), open)
      ensures Reachable(Snapshot())
    {
      isAssistantOpen := open;
    }

    /** The context is built afresh from the current state on every render. */
    method CurrentContext() returns (ctx: GeminiService.AssistantContext)
      ensures ctx == GetContext(Snapshot())
      ensures ctx.dayNumber == Some(progress.daysCompleted + 1)
    {
      ctx := GetContext(Snapshot());
    }
  }

  /** The whole daily loop: choose English, play the pack, finish the lesson. */
  method DailyLoop() {
    var flow := new SkillBuilderFlow();
    InitialReachable();
    FindFixtureGoals(GOAL_ENGLISH_ID);
    flow.HandleGoalSelect(GOAL_ENGLISH_ID);
    flow.HandleStartDailyPack();
    var packView := RenderScreen(flow.Snapshot());
    assert packView.DailyPackView? && packView.dayCount == 7;
    flow.HandlePackComplete();
    var lessonView := RenderScreen(flow.Snapshot());
    assert lessonView.LessonSheetView? && lessonView.dayCount == 8;
    flow.HandleFinishLesson();
    assert RenderScreen(flow.Snapshot()).ProgressView?;
    assert flow.progress.daysCompleted == 7 && flow.progress.currentStreak == 4;
    assert flow.progress.percentComplete == 0.25;
    var ctx := flow.CurrentContext();
    assert ctx.topics == Some(ENGLISH_TOPICS);
  }

  // ---------------------------------------------------------------------
  // The outer application
  // ---------------------------------------------------------------------

  /** Whether the skill builder is shown instead of the music home. Leaving
      it unmounts the flow, so coming back starts from the initial state. */
  class Shell {
    var inSkillBuilder: bool
    var flow: SkillBuilderFlow?

    ghost predicate Valid()
      reads this
    {
      inSkillBuilder <==> flow != null
    }

    constructor ()
      ensures Valid() && !inSkillBuilder
    {
      inSkillBuilder := false;
      flow := null;
    }

    /** `onLaunchSkillBuilder`: a fresh flow at its initial state. */
    method Launch()
      requires Valid() && !inSkillBuilder
      modifies this
      ensures Valid() && inSkillBuilder
      ensures fresh(flow) && flow.Snapshot() == INITIAL_FLOW && Reachable(flow.Snapshot())
    {
      inSkillBuilder := true;
      flow := new SkillBuilderFlow();
      InitialReachable();
    }

    /** `onExit`, offered on the goal list and the progress screen only:
        back to the music home. The flow's state is dropped, and with it the
        drawer mounted inside the flow, so the chat history is lost too. */
    method Exit()
      requires Valid() && inSkillBuilder
      requires flow.screen == GoalSelection || flow.screen == Progress
      modifies this
      ensures Valid() && !inSkillBuilder
    {
      inSkillBuilder := false;
      flow := null;
    }
  }
}
