/** The reflection journal: a mood picks a prompt question from a table and
    a non-blank reflection is saved with a sparkle effect before returning
    to the dashboard. */
module ReflectionJournal {
  import opened Screen
  import opened JsString

  const FallbackQuestion: string := "How are you feeling right now?"

  /** The ids of the `moods` buttons. */
  function MoodIds(): (ids: seq<string>)
    ensures |ids| == 4 && "" !in ids
    ensures forall i, j :: 0 <= i < j < |ids| ==> ids[i] != ids[j]
  {
    ["joyful", "peaceful", "anxious", "grateful"]
  }

  /** `moodQuestions[mood] || []`: three questions for each selectable mood
      and none for any other string. */
  function Questions(mood: string): (qs: seq<string>)
    ensures |qs| == 3 <==> mood in MoodIds()
    ensures |qs| == 0 <==> mood !in MoodIds()
    ensures FallbackQuestion !in qs && "" !in qs
  {
    match mood
    case "joyful" => [
      "What brought you the most joy today?",
      "How can you share this happiness with others?",
      "What small moment made you smile?"]
    case "peaceful" => [
      "What helped you feel most at peace today?",
      "How did you create calm in your day?",
      "What would you like to release before tomorrow?"]
    case "anxious" => [
      "What's one thing that went well today despite your worries?",
      "How can you be gentle with yourself right now?",
      "What would you tell a dear friend feeling this way?"]
    case "grateful" => [
      "What are three things you're grateful for right now?",
      "Who in your life deserves appreciation today?",
      "What simple pleasure brought you comfort?"]
    case _ => []
  }

  /** `getRandomQuestion`, with `pick` for `Math.floor(Math.random() * n)`;
      so `pick` is below `n`, or 0 when there are no questions. The `||`
      falls back on the generic question when the pick finds nothing. */
  function RandomQuestion(mood: string, pick: nat): string
    requires pick < |Questions(mood)| || (|Questions(mood)| == 0 && pick == 0)
  {
    var qs := Questions(mood);
    if pick < |qs| && qs[pick] != "" then qs[pick] else FallbackQuestion
  }

  /** A selectable mood gets one of its own questions, which is never the
      fallback; any other mood (the empty one included) gets the fallback. */
  lemma RandomQuestionFromTable(mood: string, pick: nat)
    requires pick < |Questions(mood)| || (|Questions(mood)| == 0 && pick == 0)
    ensures mood in MoodIds() ==> RandomQuestion(mood, pick) in Questions(mood) && RandomQuestion(mood, pick) != FallbackQuestion
    ensures mood !in MoodIds() ==> RandomQuestion(mood, pick) == FallbackQuestion
  {
  }

  class JournalScreen {
    var selectedMood: string
    var reflection: string
    var showSparkles: bool

    constructor ()
      ensures selectedMood == "" && reflection == "" && !showSparkles
    {
      selectedMood := "";
      reflection := "";
      showSparkles := false;
    }

    /** A mood button. */
    method SelectMood(id: string)
      modifies this`selectedMood
      ensures selectedMood == id
    {
      selectedMood := id;
    }

    /** Typing in the reflection. */
    method SetReflection(value: string)
      modifies this`reflection
      ensures reflection == value
    {
      reflection := value;
    }

    /** The save button is enabled when the reflection is not blank. */
    function SaveEnabled(): (enabled: bool)
      reads this
      ensures enabled <==> !IsBlank(reflection)
    {
      TrimEmptyIffBlank(reflection);
      HasText(reflection)
    }

    /** `handleSaveReflection`: a blank reflection does nothing; otherwise
        the sparkles start and the delayed return is scheduled. */
    method SaveReflection() returns (scheduled: bool)
      modifies this`showSparkles
      ensures scheduled <==> SaveEnabled()
      ensures scheduled ==> showSparkles
      ensures !scheduled ==> showSparkles == old(showSparkles)
    {
      scheduled := SaveEnabled();
      if scheduled {
        showSparkles := true;
      }
    }

    /** The 2000 ms timer of a save: the sparkles stop and the screen
        returns to the dashboard. */
    method SparklesTimerFires() returns (nav: Nav)
      modifies this`showSparkles
      ensures !showSparkles && nav == NavigateTo(Dashboard)
    {
      showSparkles := false;
      nav := NavigateTo(Dashboard);
    }
  }
}
