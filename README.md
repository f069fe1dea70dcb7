# Spotify Skill Builder — a verified model of its logic

The application is a music-streaming home screen with a "skill builder"
mode. The user picks a learning goal and plays a daily audio pack, made of
songs and a podcast clip. They then read a lesson sheet and take a short
quiz. An AI assistant drawer answers questions using a snapshot of where the
user is.

This project models the logic of that application in Dafny and proves
properties of the model:

- `Types`: the records the screens share. Optional and nullable fields are
  `Option`s, so an absent list and an empty one stay different.
- `Constants`: the fixture user, progress, goals, pack, lesson sheet and
  quiz, with lemmas about how they fit together.
- `DailyPack`: the player of the daily pack. It covers the one-second timer
  tick, skipping, clicking a track, play/pause, the reset effect that fires
  when the track index changes, and the `m:ss` time format.
  - The state changes are written twice: once as pure step functions on a
    `PlaybackState`, and once as the `Player` class, whose fields are the
    screen's state hooks.
  - Each method of `Player` is proved to perform its step.
  - Lemmas about runs of ticks give the timing of a whole pack.
- `AssistantDrawer`: the assistant's conversation and the decision which
  parts of a structured answer are shown.
  - The `async` submit handler is split at its `await` into a submit step
    and a resolve step.
  - A run of user events under the send button's guard is proved to keep
    user and bot turns alternating.
- `GeminiService`: the gateway to the remote model. It covers:
  - the request it builds and its system instruction with defaults for
    missing context fields;
  - the answer it hands back when there is no key, when the call fails, and
    when it succeeds.

  The remote call is an input value: it failed, or it returned a text and
  what parsing that text gave.
- `App`: the four-screen skill-builder flow and the outer shell that
  switches between the music home and the flow. It covers:
  - the handlers;
  - the goal lookup;
  - the context handed to the assistant;
  - what each screen renders, including the blank progress screen when no
    goal matches;
  - which buttons each screen offers, and the proof that no sequence of
    presses reaches that blank screen.
- `LessonSheet`: the quiz. It covers:
  - answers that start unanswered (`-1`) and freeze once submitted;
  - the counting loop that scores them;
  - when submitting is allowed;
  - how each option is drawn after submission.
- `SpotifyHome`: the greeting by hour of the day.
- `Text`: the JavaScript string behaviour the code relies on:
  - `trim()` with the ECMAScript white-space and line-terminator set;
  - decimal formatting of numbers in template literals;
  - substring occurrence.

## Where the documented behaviour and the code differ

The model follows the code in each of these cases.

- **Timer.** A tick adds a second only while the elapsed time is below the
  track's duration. The tick after it reaches the duration moves on (or
  stops on the last item). A track of `d` seconds therefore takes `d + 1`
  ticks, not `d`. From 2 s into a 3-second item, the next item starts after
  two ticks, and a third tick gives 1 s into it.
- **Clicking the current track.** This does not restart the track. The
  reset effect depends on the index only, so the click just resumes
  playback where it was.
- **Out-of-range clicks.** There is no error for a clicked index out of
  range. Indices come from the rendered list.
- **Single-flight.** The submit handler has no single-flight guard of its
  own. Only the send button's `disabled` attribute keeps requests one at a
  time (`HandlerAloneDoesNotSerialise` shows two submits in a row).
- **Missing API key.** The answer for a missing key is an ordinary
  response. The drawer renders it, showing its explanation.
- **Chat history.** The assistant's conversation is described as belonging
  to the whole application. In the code the drawer is mounted inside the
  skill-builder flow (App.tsx:113-118). Leaving the flow (App.tsx:130)
  unmounts it, so the history is lost along with the flow's state
  (`App.Shell.Exit`).

## Worked examples

The operations are also driven end to end in four worked examples. These
are methods without a contract of their own, whose assertions are checked
along the way: `DailyPack.PlaybackSession`, `AssistantDrawer.Conversation`,
`App.DailyLoop` and `LessonSheet.QuizSession`.

## Model

| member | source | states |
|---|---|---|
| `Types.OrDefault` | services/geminiService.ts:80-85 | `x \|\| fallback` on an optional string: an absent or empty value gives the fallback, any other value is kept |
| `Text.BlankIffAllWhitespace` | components/AssistantDrawer.tsx:27 | `!input.trim()` holds exactly when every character of the input is JavaScript white space or a line terminator |
| `Text.TrimStartFacts` | components/AssistantDrawer.tsx:27 | trimming the front leaves nothing exactly when the text is all white space, and otherwise leaves a text whose first character is not white space |
| `Text.TrimEndFacts` | components/AssistantDrawer.tsx:27 | trimming the end leaves nothing exactly when the text is all white space, and keeps a text that starts with a non-space character non-empty |
| `Text.Trim` | components/AssistantDrawer.tsx:27 | `trim()` leaves the empty string exactly when every character is white space or a line terminator |
| `Text.NatToString` | screens/DailyPack.tsx:15 | the decimal text of a number is non-empty and all digits; one digit exactly below 10 |
| `Text.NatToStringParses` | screens/DailyPack.tsx:15 | the decimal text of a number is a non-empty string of digits that reads back as the number; one digit below 10, two below 100 |
| `Constants.MockPackIsValid` | constants.ts:39-72 | the fixture pack has a positive day, three items, positive durations and clip bounds inside their items |
| `Constants.PodcastClipInsideItem` | constants.ts:44-53 | the podcast clip runs from 300 s to 420 s of a 600 s item |
| `Constants.MockQuizIsValid` | constants.ts:85-105 | every correct index of the fixture quiz names one of its three questions' options |
| `Constants.CrossIdsAgree` | constants.ts:40-87 | pack, lesson sheet and quiz ids refer to each other |
| `Constants.GoalIdsDistinct` | constants.ts:18-37 | the goal ids are pairwise distinct and the pack's goal is the first goal |
| `Constants.InitialProgressFitsPack` | constants.ts:11-16 | the next day after the starting progress is the pack's day, and the starting ratio lies in [0, 1] |
| `DailyPack.FormatTimeShape` | screens/DailyPack.tsx:12-16 | `formatTime` gives minute digits, a colon and exactly two second digits, reading as seconds / 60 and seconds mod 60 |
| `DailyPack.ParseFormatTime` | screens/DailyPack.tsx:12-16 | reading a formatted time back gives the original number of seconds |
| `DailyPack.FormatTimeInjective` | screens/DailyPack.tsx:12-16 | different numbers of seconds are formatted differently |
| `DailyPack.FormatTime` | screens/DailyPack.tsx:12-16 | `formatTime` gives digits, a colon and two more digits |
| `DailyPack.TrackChanged` | screens/DailyPack.tsx:49-52 | the index effect keeps the index, restarts at 0 s and plays |
| `DailyPack.Mounted` | screens/DailyPack.tsx:19-21 | after mount (the index effect of lines 49-52 included) the first track plays from 0 s |
| `DailyPack.ToggleStep` | screens/DailyPack.tsx:59 | play/pause flips the play flag and keeps index and elapsed time |
| `DailyPack.TickStep` | screens/DailyPack.tsx:26-46 | a timer tick keeps the index on an item and the elapsed time within that item's duration |
| `DailyPack.SkipStep` | screens/DailyPack.tsx:61-63 | a seek keeps the elapsed time within the current track |
| `DailyPack.TrackClickStep` | screens/DailyPack.tsx:49-57 | a click on any listed track leaves a state inside the pack |
| `DailyPack.Ticks` | screens/DailyPack.tsx:26-46 | any number of ticks keeps the state inside the pack |
| `DailyPack.MountedIsInRange` | screens/DailyPack.tsx:19-21 | on mount the index effect runs: the first track plays from 0 s |
| `DailyPack.TickBelowDuration` | screens/DailyPack.tsx:41 | below the duration a tick adds exactly one second and changes nothing else |
| `DailyPack.TickAdvances` | screens/DailyPack.tsx:31-35 | at the duration of a track that is not last, a tick moves to the next track, playing from 0 s |
| `DailyPack.TickStopsOnLast` | screens/DailyPack.tsx:36-39 | at the duration of the last track, a tick stops playback and leaves the elapsed time at the duration |
| `DailyPack.PausedStaysPut` | screens/DailyPack.tsx:26-46 | while paused no tick changes anything |
| `DailyPack.SkipClamps` | screens/DailyPack.tsx:61-63 | a seek lands at 0 if it would go below, at the duration if it would go past, and at elapsed + seconds otherwise; index and play flag are unchanged |
| `DailyPack.SkipRoundTrip` | screens/DailyPack.tsx:61-63 | a seek that stays inside the track is undone by the opposite seek |
| `DailyPack.TrackClickPlays` | screens/DailyPack.tsx:49-57 | a click always selects the track and plays; it restarts at 0 s exactly when the index changes, and resumes in place otherwise |
| `DailyPack.ToggleTwice` | screens/DailyPack.tsx:59 | play/pause flips only the play flag, and twice is no change |
| `DailyPack.TicksAdd` | screens/DailyPack.tsx:26-46 | m + n ticks are m ticks followed by n ticks |
| `DailyPack.PlaysToDuration` | screens/DailyPack.tsx:29-42 | a playing track reaches its duration after (duration − elapsed) ticks, still on the same item and playing |
| `DailyPack.TrackTakesDurationPlusOne` | screens/DailyPack.tsx:29-42 | a track started at 0 s is left (or stopped, when last) on tick duration + 1, not on tick duration |
| `DailyPack.PlaysThroughFrom` | screens/DailyPack.tsx:29-52 | from the start of track i, the remaining tracks' (duration + 1) ticks end on the last track, stopped at its duration |
| `DailyPack.PlaysWholePack` | screens/DailyPack.tsx:19-52 | from mount, the sum of (duration + 1) over all tracks ends the pack stopped on its last track; further ticks change nothing |
| `DailyPack.TwoItemTiming` | screens/DailyPack.tsx:29-42 | items of 3 s and 5 s from 2 s: 1 tick gives (0, 3 s), 2 ticks give (1, 0 s), 3 ticks give (1, 1 s) |
| `DailyPack.OneItemExhaustion` | screens/DailyPack.tsx:29-42 | a single 2 s item: playing at 2 s after 2 ticks, stopped at 2 s after 3 ticks and still after 4 |
| `DailyPack.Player.constructor` | screens/DailyPack.tsx:19-21 | a player mounted on a playable pack is in the mounted state, the index effect (lines 49-52) having run |
| `DailyPack.Player.OnTrackChange` | screens/DailyPack.tsx:49-52 | the index effect resets the elapsed time to 0 and starts playback |
| `DailyPack.Player.Tick` | screens/DailyPack.tsx:29-42 | the interval's updater performs exactly the tick step and keeps the player valid |
| `DailyPack.Player.Skip` | screens/DailyPack.tsx:61-63 | `skip` performs exactly the seek step |
| `DailyPack.Player.HandleTrackClick` | screens/DailyPack.tsx:54-57 | `handleTrackClick` with the effect it triggers performs exactly the click step |
| `DailyPack.Player.TogglePlay` | screens/DailyPack.tsx:59 | `togglePlay` performs exactly the toggle step |
| `DailyPack.Player.TimeLabels` | screens/DailyPack.tsx:12-23 | the two time labels read back as the elapsed time and the current track's duration |
| `GeminiService.DayText` | services/geminiService.ts:81 | a missing day (or day 0) is written 0; any other day in decimal |
| `GeminiService.SystemInstruction` | services/geminiService.ts:78-86 | the instruction starts with the fixed introduction of the template |
| `GeminiService.InstructionMentionsContext` | services/geminiService.ts:78-86 | the system instruction contains the screen line, the goal line (or "None selected"), the day line (or 0) and the topics line (or "General learning") |
| `GeminiService.PlanRequest` | services/geminiService.ts:66-96 | no request without a key; otherwise one to gemini-2.5-flash carrying the user's message unchanged and the instruction built from the context |
| `GeminiService.GetAssistantResponse` | services/geminiService.ts:62-112 | no key gives the NO_API_KEY answer with no actions; a failed call, an empty text or an unparsable text give the ERROR answer with one Retry action; otherwise the parsed answer is returned unchanged; it never rejects |
| `GeminiService.FallbacksAreDistinct` | services/geminiService.ts:66-111 | the two fallbacks are exactly the fixed answers and carry different intents (NO_API_KEY and ERROR), and a parsed answer passes through unchecked, even one that claims NO_API_KEY |
| `AssistantDrawer.SubmitBlankIgnored` | components/AssistantDrawer.tsx:25-27 | a blank input changes nothing and sends nothing |
| `AssistantDrawer.SubmitStep` | components/AssistantDrawer.tsx:25-32 | a message is sent exactly when the input is not all white space; then it is the input as typed, appended as one user turn, with the field cleared and loading set; otherwise nothing changes |
| `AssistantDrawer.ResolveStep` | components/AssistantDrawer.tsx:34-41 | settling keeps the history and appends one bot turn, clears loading and keeps the field; the turn is the apology exactly on a rejection |
| `AssistantDrawer.SetInputStep` | components/AssistantDrawer.tsx:202 | typing sets the field to the text and keeps history and loading |
| `AssistantDrawer.SubmitAppendsUserTurn` | components/AssistantDrawer.tsx:29-35 | a non-blank input is sent as typed, appended as one user turn, the field is cleared and loading is set |
| `AssistantDrawer.ResolveAppendsBotTurn` | components/AssistantDrawer.tsx:34-41 | settling appends exactly one bot turn, the answer or the fixed apology, clears loading and leaves the field alone |
| `AssistantDrawer.GatewayRunNeverApologises` | components/AssistantDrawer.tsx:25-42 | in any run of typing, sends and settlements in which every call settles as `getAssistantResponse` settles it (it always resolves, lines 62-112 of services/geminiService.ts), no turn of the history is the connection apology |
| `AssistantDrawer.RejectionApologises` | components/AssistantDrawer.tsx:37-38 | a pending call that is rejected puts the apology into the history |
| `AssistantDrawer.Deliver` | components/AssistantDrawer.tsx:25-42 | one event (typing, a press of the send button of line 208, a settlement) keeps the history as a prefix and adds at most one turn; typing changes only the field; a press on the disabled button changes nothing; an enabled press adds one pending call, sets loading and clears the field |
| `AssistantDrawer.Run` | components/AssistantDrawer.tsx:25-42 | a run of events grows the history by at most one turn per event and never shrinks it |
| `AssistantDrawer.DeliverKeepsCoherent` | components/AssistantDrawer.tsx:25-42 | one user event under the send guard of line 208 keeps turns alternating; loading shows exactly whether a call is pending; history only grows at its end |
| `AssistantDrawer.RunKeepsCoherent` | components/AssistantDrawer.tsx:25-42 | with the send guard of line 208, any run of typing, sends and settlements keeps the history a growing, alternating log with at most one call pending |
| `AssistantDrawer.InitialSessionCoherent` | components/AssistantDrawer.tsx:14-16 | the empty drawer satisfies the session invariant |
| `AssistantDrawer.SecondSendWhileLoadingIgnored` | components/AssistantDrawer.tsx:208 | a second send before the first answer meets a disabled button; afterwards the log is exactly question and answer |
| `AssistantDrawer.HandlerAloneDoesNotSerialise` | components/AssistantDrawer.tsx:25-32 | the handler by itself lets two user turns follow each other |
| `AssistantDrawer.Drawer.constructor` | components/AssistantDrawer.tsx:14-16 | the drawer starts with an empty field, not loading, and no history |
| `AssistantDrawer.Drawer.Submit` | components/AssistantDrawer.tsx:25-32 | the handler up to its `await` performs the submit step and returns the message sent |
| `AssistantDrawer.Drawer.Resolve` | components/AssistantDrawer.tsx:34-41 | the handler after its `await` performs the resolve step |
| `AssistantDrawer.Drawer.SetInput` | components/AssistantDrawer.tsx:202 | typing, a starter suggestion (lines 169-170) or a follow-up question (line 103) sets the field to that text and changes nothing else |
| `AssistantDrawer.Drawer.CanSend` | components/AssistantDrawer.tsx:208 | the send button is enabled exactly when the input is not all white space and no answer is awaited |
| `AssistantDrawer.FirstHint` | components/AssistantDrawer.tsx:76 | a checklist entry shows its first hint exactly when it has one |
| `AssistantDrawer.RenderBotResponse` | components/AssistantDrawer.tsx:45-123 | at most the five blocks are drawn, and the answer ends in its text block exactly when it has neither steps nor a checklist |
| `AssistantDrawer.RenderOrdered` | components/AssistantDrawer.tsx:47-120 | the rendered blocks follow the layout order: steps, checklist, actions, follow-ups, text; each kind at most once |
| `AssistantDrawer.RenderListBlocks` | components/AssistantDrawer.tsx:49-111 | the steps (follow-ups) block appears exactly when the list is present and non-empty, and shows exactly that list |
| `AssistantDrawer.RenderChecklistBlock` | components/AssistantDrawer.tsx:67-82 | the checklist block appears exactly when the checklist is present and non-empty, row for row with each label and its first hint |
| `AssistantDrawer.RenderActionsBlock` | components/AssistantDrawer.tsx:85-93 | the actions block appears exactly when actions are present and non-empty, one button per action, labelled as the action |
| `AssistantDrawer.RenderTextBlock` | components/AssistantDrawer.tsx:114-119 | the text block appears exactly when steps and checklist are both absent, showing the explanation or the default sentence |
| `AssistantDrawer.EmptyListsRenderNothing` | components/AssistantDrawer.tsx:49-114 | present-but-empty lists hide both the list blocks and the text block; absent lists show the default sentence |
| `AssistantDrawer.FallbacksRender` | components/AssistantDrawer.tsx:85-119 | the no-key answer renders as its explanation only; the error answer as a Retry button and its explanation |
| `App.ScreenName` | App.tsx:12 | every screen has a non-empty name |
| `App.ScreenNamesDistinct` | App.tsx:12 | distinct screens have distinct names |
| `App.FindGoal` | App.tsx:57 | the goal found is one of the goals and has the chosen id; none is found exactly when no goal has it (always for a missing id) |
| `App.FindGoalFirst` | App.tsx:57 | the goal found is the first one with the chosen id |
| `App.FindFixtureGoals` | App.tsx:57 | each fixture goal is found by its id, a missing id finds nothing, and any id finds a goal exactly when it is one of the three |
| `App.AfterGoalSelect` | App.tsx:28-32 | the goal is recorded in the flow and in the user, the progress screen shows, progress and drawer are untouched |
| `App.AfterStartDailyPack` | App.tsx:34-36 | only the screen changes, to the pack |
| `App.PackCompleted` | App.tsx:38-44 | one more day and one more streak day; the ratio never exceeds 1, reaches 1 exactly from 0.95 upwards, and never decreases or leaves [0, 1] |
| `App.AfterPackComplete` | App.tsx:38-46 | one more day and streak day, the lesson sheet shows; goal, user and drawer are untouched |
| `App.AfterFinishLesson` | App.tsx:48-50 | only the screen changes, back to progress |
| `App.AfterChangeGoal` | App.tsx:52-55 | back to the goal list with no goal chosen; user record, progress and drawer are untouched |
| `App.AfterSetAssistantOpen` | App.tsx:113-118 | only the drawer flag changes |
| `App.CompleteTimesFacts` | App.tsx:38-44 | after n completions the counters have grown by n and the ratio is min(1, start + 0.05 n) |
| `App.FixtureReachesFullOnSixteenth` | App.tsx:38-44 | from the fixture progress, the ratio is 1 exactly after 16 or more completions, 0.95 after 15, and the days completed grow by one per completion |
| `App.GoalHandlers` | App.tsx:28-55 | choosing a goal records it in the flow and in the user; changing the goal clears only the flow's copy; neither touches progress; finishing a lesson keeps the completed progress |
| `App.GetContext` | App.tsx:57-66 | the context names the screen and the next day; the topics are the English list exactly for the English goal, otherwise "General"; the title is that of a goal with the chosen id, absent exactly when none has it |
| `App.InitialContext` | App.tsx:20-66 | at start the context is the goal screen, no title, day 7, general topics |
| `App.InitialInstruction` | App.tsx:20-66 | at start the instruction says screen GOAL_SELECTION, goal "None selected", day 7 and topics "General" |
| `App.EnglishContext` | App.tsx:28-66 | after choosing English, the context names the progress screen, "Improve English" and the English topics |
| `App.RenderScreen` | App.tsx:68-108 | blank exactly on the progress screen with no matching goal; the goal list exactly on the goal screen; the progress screen shows the matching goal; pack and lesson get day count = days completed + 1 |
| `App.LessonDayFollowsPackDay` | App.tsx:38-100 | completing the pack shows the lesson sheet with a day one more than the pack screen showed, so its header `Lesson Sheet: Day n` (screens/LessonSheet.tsx:38) names the day after the pack header `Day n` (screens/DailyPack.tsx:69) |
| `App.Press` | App.tsx:68-103 | a button that is not on the rendered screen cannot be pressed and changes nothing; a screen button that is pressed changes the screen |
| `App.PressKeepsReachable` | App.tsx:28-103 | every press keeps the state reachable: goal list exactly when no goal is chosen, a chosen goal is one of the list's and the user names it, ratio in [0, 1] |
| `App.PressAllKeepsReachable` | App.tsx:28-103 | any sequence of presses keeps the state reachable |
| `App.InitialReachable` | App.tsx:20-26 | the initial state is reachable |
| `App.ReachableRenders` | App.tsx:68-108 | a reachable state never renders blank, and its progress screen shows the chosen goal |
| `App.NeverBlank` | App.tsx:68-108 | whatever is pressed from the start, the `null` of line 74 is never rendered |
| `App.ChosenGoalRenders` | App.tsx:28-101 | from the goal list, choosing one of its goals shows that goal's progress screen, and so does coming back through continue, the pack's completion and the lesson's finish, with the progress counted once |
| `App.DroppedGoalRendersBlank` | App.tsx:52-74 | the `null` branch is defensive: a progress screen with the goal cleared renders nothing but is not reachable; after a goal change the lesson's finish button is not on screen and pressing it changes nothing |
| `App.SkillBuilderFlow.constructor` | App.tsx:20-26 | the flow starts on the goal screen with the fixture user and progress, no goal, the assistant closed |
| `App.SkillBuilderFlow.HandleGoalSelect` | App.tsx:28-32 | on the goal list with one of its goal ids (screens/GoalSelection.tsx:24), performs the goal-selection transition and keeps the state reachable |
| `App.SkillBuilderFlow.HandleStartDailyPack` | App.tsx:34-36 | on the progress screen (its continue button, line 80), moves to the pack screen, changes nothing else and keeps the state reachable |
| `App.SkillBuilderFlow.HandlePackComplete` | App.tsx:38-46 | on the pack screen (its `onComplete`, line 90), performs the completion transition and keeps the state reachable |
| `App.SkillBuilderFlow.HandleFinishLesson` | App.tsx:48-50 | on the lesson sheet (its `onFinish`, line 101), moves to the progress screen, changes nothing else and keeps the state reachable |
| `App.SkillBuilderFlow.HandleChangeGoal` | App.tsx:52-55 | on the progress screen (line 81), moves to the goal screen, clears only the flow's goal id and keeps the state reachable |
| `App.SkillBuilderFlow.SetAssistantOpen` | App.tsx:113-118 | opening or closing the drawer, on any screen, changes only that flag and keeps the state reachable |
| `App.SkillBuilderFlow.CurrentContext` | App.tsx:59-66 | the context handed to the drawer (line 117) is `getContext` of the current state, with day = days completed + 1 |
| `App.Shell.constructor` | App.tsx:125 | the application starts on the music home |
| `App.Shell.Launch` | App.tsx:129-133 | from the music home, launching mounts a fresh flow in its initial, reachable state |
| `App.Shell.Exit` | App.tsx:130 | from the goal list or the progress screen, the only screens that wire `onExit` (lines 71 and 82), leaving drops the flow and the drawer inside it, so the next launch starts afresh with an empty chat |
| `LessonSheet.Score` | screens/LessonSheet.tsx:26-31 | the number of questions answered with their correct index, never more than the number of questions |
| `LessonSheet.ScoreBounds` | screens/LessonSheet.tsx:25-31 | the score lies in [0, n]; it is n exactly when every answer is right and 0 exactly when none is |
| `LessonSheet.CountScore` | screens/LessonSheet.tsx:26-31 | the counting loop yields the number of questions answered with their correct index |
| `LessonSheet.SubmitEnabledIffAllAnswered` | screens/LessonSheet.tsx:112 | submitting is allowed exactly when every question has one of its options chosen |
| `LessonSheet.ClassifyOption` | screens/LessonSheet.tsx:79-86 | an option is drawn correct exactly when submitted and correct; wrong exactly when submitted, chosen and not correct; dimmed exactly when submitted, neither chosen nor correct; chosen exactly when not submitted and chosen |
| `LessonSheet.SubmittedOptionClasses` | screens/LessonSheet.tsx:79-97 | after submission an option is drawn correct, wrong or dimmed; the check icon goes with correct and the cross with wrong |
| `LessonSheet.SubmittedQuestionDisplay` | screens/LessonSheet.tsx:71-86 | after submission exactly the correct option is drawn correct, and a wrong option is drawn exactly when the chosen one was wrong |
| `LessonSheet.QuizSheet.constructor` | screens/LessonSheet.tsx:14-16 | one unanswered (-1) entry per question, not submitted, score 0 |
| `LessonSheet.QuizSheet.HandleOptionSelect` | screens/LessonSheet.tsx:18-23 | before submission the question's answer becomes the option and nothing else changes; after submission nothing changes |
| `LessonSheet.QuizSheet.HandleSubmitQuiz` | screens/LessonSheet.tsx:25-34 | the answers are kept, the score is the number of right answers (at most n) and the sheet is submitted |
| `LessonSheet.QuizSheet.SubmitArea` | screens/LessonSheet.tsx:107-124 | before submission the button shows, enabled when all are answered; afterwards the score out of n shows |
| `SpotifyHome.GetTimeGreeting` | screens/SpotifyHome.tsx:9-14 | "Good morning" exactly before 12, "Good afternoon" exactly from 12 to before 18, "Good evening" exactly from 18 |
| `SpotifyHome.GreetingIsOneOfThree` | screens/SpotifyHome.tsx:11-13 | every hour gets one of the three greetings; the boundary hours 12 and 18 belong to the later part of the day |

## Left out

- Markup, CSS classes, icons, animations, and the drawer's auto-scroll
  effect (components/AssistantDrawer.tsx:19-23) are presentation only.
- components/Shared.tsx, components/BottomNav.tsx, screens/GoalSelection.tsx
  and screens/ProgressScreen.tsx are not part of this model. They only pass
  props through and draw; which screen offers which handler is stated by
  `App.Offered`.
- Timers and effect scheduling are left out. A tick is one step, and the
  interval's re-creation when its dependencies change is not modelled. The
  index effect runs at once after a change of index. Between a click and
  that effect, the elapsed time may briefly exceed the new track's
  duration; `Player.OnTrackChange` allows that state.
- The tick's updater calls `setCurrentTrackIndex` and `setIsPlaying` from
  inside a state updater. The doubled updater calls of React's strict
  development mode could advance twice; the model applies each update once.
- DailyPack.FormatTime: takes a natural number of seconds only. The screen
  never formats a negative or fractional time, so those outputs are not
  modelled.
- `progressPercent` (screens/DailyPack.tsx:65) is a floating-point display
  value and is not modelled.
- App.PackCompleted: computes on exact reals. It does not model the
  rounding of IEEE doubles in `percentComplete + 0.05`, so the exact
  completion at which 1 is reached may differ by one in the program.
- The remote model client, its response schema and `JSON.parse` are outside
  the model. A reply is an input value: the call failed, or it returned a
  text and an optional parse result.
- GeminiService.GetAssistantResponse: assumes a parse result has the shape
  of an answer. `JSON.parse(text) as AssistantResponse` checks nothing, so
  ill-typed values reaching the drawer are not modelled.
- `process.env.API_KEY` is a parameter, and the console warnings and errors
  are output, so both are left out.
- The drawer's `context` is typed `any`; the model fixes its four fields.
  The gateway is called with the context current when the handler runs; the
  model does not track a context changing while a call is pending.
- Asynchrony is modelled only as the two halves of the submit handler and
  the settling of pending calls in a run of events. Interleavings with
  re-renders are not modelled.
- Suggested-action buttons have no click handler in the drawer, so pressing
  them does nothing. The action payload is typed `any`; the model keeps it a
  string, the only kind the application builds.
- The drawer's open/close button and backdrop only call `onOpen` and
  `onClose`; these are `App.SkillBuilderFlow.SetAssistantOpen`.
- The hour of the greeting is a parameter, since the wall clock is not
  modelled.
