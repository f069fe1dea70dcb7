/** The fixture data the application runs on, and the facts about it that
    the player, the quiz and the flow controller rely on. */
module Constants {
  import opened Types

  const CURRENT_USER := User("usr_91011", "student_alpha@mail.com", "Saneer", None, "2025-12-01")

  const INITIAL_PROGRESS := UserProgress("usr_91011", 6, 3, 0.2)

  const GOAL_ENGLISH_ID := "goal_english"

  const GOALS: seq<Goal> := [
    Goal(GOAL_ENGLISH_ID, "Improve English",
      "Master professional vocabulary and clear communication.", "\U{1F5E3}\U{FE0F}"),
    Goal("goal_focus", "Deep Focus",
      "Train your attention span with productivity techniques.", "\U{1F9E0}"),
    Goal("goal_music", "Music Theory",
      "Understand the building blocks of your favorite songs.", "\U{1F3B5}")
  ]

  const MOCK_PACK := DailyAudioPack(
    "pack_001_eng",
    GOAL_ENGLISH_ID,
    7,
    [ AudioItem("audio_p1", Podcast, "The Daily: Decoded", "NYT", 600, "spotify:podcast:xyz",
        Some(300), Some(420)),
      AudioItem("audio_s1", Song, "Work Song", "Hozier", 240, "spotify:track:xyz1", None, None),
      AudioItem("audio_s2", Song, "Vienna", "Billy Joel", 235, "spotify:track:xyz2", None, None)
    ],
    "ls_001_eng")

  const MOCK_LESSON := LessonSheet(
    "ls_001_eng",
    "Today's session focused on resilience and steady progress. 'Vienna' reminds us to slow down, "
      + "while 'Work Song' explores dedication. The podcast clip discussed the etymology of 'Perseverance'.",
    [ Vocabulary("Perseverance",
        "Persistence in doing something despite difficulty or delay in achieving success."),
      Vocabulary("Ambiguous", "Open to more than one interpretation; having a double meaning."),
      Vocabulary("Meticulous", "Showing great attention to detail; very careful and precise.")
    ],
    "quiz_001_eng")

  const MOCK_QUIZ := Quiz(
    "quiz_001_eng",
    "pack_001_eng",
    [ QuizQuestion("Based on the podcast, what is a synonym for 'Perseverance'?",
        ["Apathy", "Determination", "Hesitation"], 1),
      QuizQuestion("Which song encourages taking your time?",
        ["Work Song", "Vienna", "The Daily"], 1),
      QuizQuestion("What does 'Meticulous' mean?",
        ["Careless", "Fast", "Precise"], 2)
    ])

  /** The pack is playable: a positive day, three items, positive durations,
      clip bounds inside their items. */
  lemma MockPackIsValid()
    ensures ValidPack(MOCK_PACK)
    ensures |MOCK_PACK.audioItems| == 3
  {
  }

  /** The podcast clip runs from 300 to 420 seconds of a 600-second item. */
  lemma PodcastClipInsideItem()
    ensures var p := MOCK_PACK.audioItems[0];
      && p.kind == Podcast
      && p.clipStartSec == Some(300) && p.clipEndSec == Some(420) && p.durationSec == 600
      && 0 <= p.clipStartSec.value < p.clipEndSec.value <= p.durationSec
  {
  }

  /** Every correct index of the quiz names one of its options. */
  lemma MockQuizIsValid()
    ensures ValidQuiz(MOCK_QUIZ)
    ensures |MOCK_QUIZ.questions| == 3
  {
  }

  /** The pack, the lesson sheet and the quiz point at each other. */
  lemma CrossIdsAgree()
    ensures MOCK_PACK.lessonSheetId == MOCK_LESSON.id
    ensures MOCK_LESSON.quizId == MOCK_QUIZ.id
    ensures MOCK_QUIZ.packId == MOCK_PACK.id
  {
  }

  /** Goal ids are pairwise distinct, and the pack's goal is the first goal. */
  lemma GoalIdsDistinct()
    ensures forall i, j :: 0 <= i < j < |GOALS| ==> GOALS[i].id != GOALS[j].id
    ensures GOALS[0].id == GOAL_ENGLISH_ID == MOCK_PACK.goalId
  {
    assert GOALS[1].id[5] == 'f' && GOALS[2].id[5] == 'm';
  }

  /** The starting progress leads into the pack's day, and its completion
      ratio is a proper fraction. */
  lemma InitialProgressFitsPack()
    ensures INITIAL_PROGRESS.daysCompleted + 1 == MOCK_PACK.dayNumber
    ensures 0.0 <= INITIAL_PROGRESS.percentComplete <= 1.0
    ensures INITIAL_PROGRESS.userId == CURRENT_USER.id
  {
  }
}
