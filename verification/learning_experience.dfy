/** The enhanced learning experience: a learning session whose progress is moved by the
    exercise buttons, a learning mood derived from each change, and the audio emotion that
    follows the mood. */
module LearningExperience {
  import opened Common

  datatype Difficulty = Beginner | Intermediate | Advanced
  datatype Emotion = Happy | Calm | Sad | Encouraging | Default
  datatype Mood = Focused | Struggling | Achieving | Exploring

  datatype Session = Session(id: string, title: string, progress: int, difficulty: Difficulty,
                             emotion: Emotion, achievements: seq<string>)

  const InitialSession: Session :=
    Session("1", "数据可视化基础", 65, Beginner, Encouraging, ["完成第一个图表", "掌握基础概念"])
  const InitialMood: Mood := Focused

  /** The effect's switch from mood to emotion. */
  function EmotionOf(mood: Mood): (e: Emotion)
    ensures e != Sad
    ensures e == Happy <==> mood == Achieving
    ensures e == Calm <==> mood == Focused
    ensures e == Encouraging <==> mood == Struggling
    ensures e == Default <==> mood == Exploring
  {
    match mood
    case Achieving => Happy
    case Focused => Calm
    case Struggling => Encouraging
    case Exploring => Default
  }

  /** The effect is one-to-one: the emotion tells which mood produced it. */
  lemma EmotionDeterminesMood(m1: Mood, m2: Mood)
    requires EmotionOf(m1) == EmotionOf(m2)
    ensures m1 == m2
  {
  }

  /** `Math.min(100, prev.progress + increment)`: there is a ceiling and no floor. */
  function NewProgress(progress: int, increment: int): (p: int)
    ensures p <= 100
    ensures progress + increment <= 100 ==> p == progress + increment
    ensures progress + increment > 100 ==> p == 100
  {
    if progress + increment <= 100 then progress + increment else 100
  }

  /** The mood chosen by `updateProgress` from the increment and the new progress. */
  function MoodAfter(increment: int, newProgress: int): (m: Mood)
    ensures m != Exploring
    ensures m == Struggling <==> increment <= 0
    ensures m == Achieving <==> increment > 0 && newProgress >= 90
    ensures m == Focused <==> increment > 0 && newProgress < 90
  {
    if increment > 0 then
      if newProgress >= 90 then Achieving else Focused
    else Struggling
  }

  /** `getDifficultyColor`; intermediate and the switch's default share a colour, so only
      intermediate yields it among the three levels. */
  function DifficultyColor(d: Difficulty): (c: string)
    ensures c == "#4A90E2" <==> d == Intermediate
    ensures c == "#36B37E" <==> d == Beginner
    ensures c == "#9B51E0" <==> d == Advanced
  {
    match d
    case Beginner => "#36B37E"
    case Intermediate => "#4A90E2"
    case Advanced => "#9B51E0"
  }

  datatype MoodInfo = MoodInfo(text: string, color: string)

  /** `getMoodInfo`: the badge text and colour for a mood. */
  function MoodBadge(mood: Mood): (r: MoodInfo)
    ensures r.color == "#F5A623" <==> mood == Struggling
    ensures mood == Achieving ==> r.color == DifficultyColor(Beginner)
    ensures mood == Exploring ==> r.color == DifficultyColor(Advanced)
    ensures mood == Focused ==> r.color == DifficultyColor(Intermediate)
    ensures r.text == "专注学习中" <==> mood == Focused
    ensures r.text == "需要帮助" <==> mood == Struggling
    ensures r.text == "表现优秀" <==> mood == Achieving
    ensures r.text == "探索新知" <==> mood == Exploring
  {
    match mood
    case Focused => MoodInfo("专注学习中", "#4A90E2")
    case Struggling => MoodInfo("需要帮助", "#F5A623")
    case Achieving => MoodInfo("表现优秀", "#36B37E")
    case Exploring => MoodInfo("探索新知", "#9B51E0")
  }

  /** Progress after a series of button presses, each with its increment. */
  function ProgressAfter(progress: int, increments: seq<int>): (p: int)
    ensures increments != [] ==> p <= 100
  {
    if increments == [] then progress
    else NewProgress(ProgressAfter(progress, increments[..|increments| - 1]),
                     increments[|increments| - 1])
  }

  /** Pressing "need help" (-5) n times lowers progress by 5n: nothing stops it below 0. */
  lemma {:induction false} HelpPressesHaveNoFloor(progress: int, n: nat)
    requires progress <= 100
    ensures ProgressAfter(progress, seq(n, _ => -5)) == progress - 5 * n
  {
    if n > 0 {
      var presses := seq(n, _ => -5);
      assert presses[..n - 1] == seq(n - 1, _ => -5);
      HelpPressesHaveNoFloor(progress, n - 1);
    }
  }

  /** From the initial 65, fourteen presses of "need help" show a negative progress. */
  lemma InitialProgressGoesNegative()
    ensures ProgressAfter(InitialSession.progress, seq(14, _ => -5)) == -5
  {
    HelpPressesHaveNoFloor(65, 14);
  }

  class LearningExperience {
    var session: Session
    var mood: Mood

    /** The effect has run for the current mood. */
    ghost predicate Valid()
      reads this
    {
      session.emotion == EmotionOf(mood)
    }

    /** Mounting: the initial session and mood, then the effect sets the emotion from the mood. */
    constructor ()
      ensures Valid()
      ensures session == InitialSession.(emotion := Calm) && mood == InitialMood
    {
      mood := InitialMood;
      session := InitialSession.(emotion := EmotionOf(InitialMood));
    }

    /** `updateProgress(increment)` followed by the effect, which runs (and calls
        `onEmotionChange`) only when the mood actually changed; `notified` is that call's
        argument, if any. */
    method UpdateProgress(increment: int) returns (notified: Option<Emotion>)
      requires Valid()
      modifies this
      ensures Valid()
      ensures session.progress == NewProgress(old(session.progress), increment)
      ensures mood == MoodAfter(increment, session.progress)
      ensures session.(progress := 0, emotion := Default)
           == old(session).(progress := 0, emotion := Default)
      ensures notified.Some? <==> mood != old(mood)
      ensures notified.Some? ==> notified.value == session.emotion
    {
      var before := mood;
      var newProgress := NewProgress(session.progress, increment);
      if increment > 0 {
        if newProgress >= 90 {
          mood := Achieving;
        } else {
          mood := Focused;
        }
      } else {
        mood := Struggling;
      }
      session := session.(progress := newProgress);
      notified := None;
      if mood != before {
        session := session.(emotion := EmotionOf(mood));
        notified := Some(session.emotion);
      }
    }

    /** The explore button: mood becomes exploring and, if it was not already, the effect sets
        the default emotion; progress is untouched. */
    method Explore() returns (notified: Option<Emotion>)
      requires Valid()
      modifies this
      ensures Valid()
      ensures mood == Exploring && session == old(session).(emotion := Default)
      ensures notified.Some? <==> old(mood) != Exploring
      ensures notified.Some? ==> notified.value == Default
    {
      var before := mood;
      mood := Exploring;
      notified := None;
      if before != Exploring {
        session := session.(emotion := EmotionOf(mood));
        notified := Some(Default);
      }
    }

    /** The colour of the session's difficulty badge. */
    function DifficultyBadge(): (c: string)
      reads this
      ensures session.difficulty == Beginner ==> c == "#36B37E"
      ensures session.difficulty == Intermediate ==> c == "#4A90E2"
      ensures session.difficulty == Advanced ==> c == "#9B51E0"
    {
      DifficultyColor(session.difficulty)
    }
  }

  /** The +10 button from the initial state: progress 75, still focused, calm music, and no
      emotion change reported since the mood stayed the same. */
  method FirstExercise() returns (view: LearningExperience, notified: Option<Emotion>)
    ensures view.Valid()
    ensures view.session.progress == 75 && view.mood == Focused && view.session.emotion == Calm
    ensures notified == None
  {
    view := new LearningExperience();
    notified := view.UpdateProgress(10);
  }
}
