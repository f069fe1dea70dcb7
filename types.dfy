/** The records of the learning companion. Every TypeScript number that the
    application only ever fills with whole numbers is an `int`; the two
    fractional ones (a confidence score and a completion ratio) are `real`.
    An optional field (`x?: T`) or a nullable one (`T | null`) is an
    `Option`, so an absent list stays distinct from an empty one. */
module Types {

  datatype Option<+T> = None | Some(value: T)

  /** JavaScript's `x || fallback` on an optional string: an absent field and
      the empty string are both falsy and give way to the fallback. */
  function OrDefault(x: Option<string>, fallback: string): (r: string)
    ensures (x == None || x == Some("")) ==> r == fallback
    ensures x.Some? && x.value != "" ==> r == x.value
  {
    match x
    case Some(s) => if s == "" then fallback else s
    case None => fallback
  }

  datatype User = User(
    id: string,
    email: string,
    firstName: string,
    currentGoalId: Option<string>,  // `string | null`
    joinDate: string)

  datatype Goal = Goal(id: string, title: string, description: string, icon: string)

  /** `type: 'Song' | 'Podcast'` */
  datatype AudioKind = Song | Podcast

  datatype AudioItem = AudioItem(
    id: string,
    kind: AudioKind,
    title: string,
    artist: string,
    durationSec: int,
    url: string,
    clipStartSec: Option<int>,  // each bound of a clip is optional on its own
    clipEndSec: Option<int>)

  datatype DailyAudioPack = DailyAudioPack(
    id: string,
    goalId: string,
    dayNumber: int,
    audioItems: seq<AudioItem>,
    lessonSheetId: string)

  datatype QuizQuestion = QuizQuestion(q: string, options: seq<string>, correctIndex: int)

  datatype Quiz = Quiz(id: string, packId: string, questions: seq<QuizQuestion>)

  datatype Vocabulary = Vocabulary(word: string, definition: string)

  datatype LessonSheet = LessonSheet(
    id: string,
    aiSummary: string,
    vocabulary: seq<Vocabulary>,
    quizId: string)

  datatype UserProgress = UserProgress(
    userId: string,
    daysCompleted: int,
    currentStreak: int,
    percentComplete: real)

  datatype FlowStep = FlowStep(id: string, title: string, description: string, expectedScreen: string)

  /** A checklist entry always carries its hint list, which may be empty.
      (`label` is a Dafny keyword, hence `labelText` here and below.) */
  datatype ChecklistItem = ChecklistItem(id: string, labelText: string, hints: seq<string>)

  /** The payload is typed `any`; the only value the application builds is a string. */
  datatype SuggestedAction = SuggestedAction(labelText: string, actionType: string, payload: string)

  /** Only the detected intent and the confidence are required. */
  datatype AssistantResponse = AssistantResponse(
    intentDetected: string,
    confidence: real,
    uncertaintyExplanation: Option<string>,
    stepByStepFlow: Option<seq<FlowStep>>,
    checklist: Option<seq<ChecklistItem>>,
    suggestedActions: Option<seq<SuggestedAction>>,
    followUpQuestions: Option<seq<string>>)

  // ---------------------------------------------------------------------
  // Well-formedness the engines rely on
  // ---------------------------------------------------------------------

  /** What the player needs of a pack's item list: at least one item, and
      every duration positive. */
  predicate PlayableItems(items: seq<AudioItem>) {
    |items| > 0 && forall i :: 0 <= i < |items| ==> items[i].durationSec > 0
  }

  /** A clip bound, when present, lies inside the item; with both present the
      start comes strictly before the end. */
  predicate ValidClip(item: AudioItem) {
    && (item.clipStartSec.Some? ==> 0 <= item.clipStartSec.value <= item.durationSec)
    && (item.clipEndSec.Some? ==> 0 <= item.clipEndSec.value <= item.durationSec)
    && (item.clipStartSec.Some? && item.clipEndSec.Some? ==>
          item.clipStartSec.value < item.clipEndSec.value)
  }

  predicate ValidPack(pack: DailyAudioPack) {
    && pack.dayNumber > 0
    && PlayableItems(pack.audioItems)
    && forall i :: 0 <= i < |pack.audioItems| ==> ValidClip(pack.audioItems[i])
  }

  /** Every question's correct answer is one of its options. */
  predicate ValidQuiz(quiz: Quiz) {
    forall i :: 0 <= i < |quiz.questions| ==>
      0 <= quiz.questions[i].correctIndex < |quiz.questions[i].options|
  }
}
