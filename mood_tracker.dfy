/** The mood check-in: one of eight moods and an intensity from 1 to 5 are
    chosen independently; saving needs both. */
module MoodTracker {
  import opened Screen

  datatype MoodOption = MoodOption(id: string, emoji: string, caption: string, color: string)

  /** The `moods` table; no two moods share an id. */
  function Moods(): (ms: seq<MoodOption>)
    ensures |ms| == 8
    ensures forall i, j :: 0 <= i < j < |ms| ==> ms[i].id != ms[j].id
    ensures forall i :: 0 <= i < |ms| ==> ms[i].id != ""
  {
    [ MoodOption("joyful", "😄", "Joyful", "from-lemon-zest to-sunshine-peach"),
      MoodOption("content", "😊", "Content", "from-electric-mint to-sky-glow"),
      MoodOption("calm", "😌", "Calm", "from-lavender-mist to-cosmic-lilac"),
      MoodOption("neutral", "😐", "Neutral", "from-white to-gray-100"),
      MoodOption("anxious", "😰", "Anxious", "from-sunshine-peach to-bubblegum-pink"),
      MoodOption("sad", "😢", "Sad", "from-sky-glow to-lavender-mist"),
      MoodOption("angry", "😠", "Angry", "from-bubblegum-pink to-cosmic-lilac"),
      MoodOption("tired", "😴", "Tired", "from-cosmic-lilac to-lavender-mist") ]
  }

  /** `intensityLevels`: exactly the integers 1 to 5, in order. */
  function IntensityLevels(): (ls: seq<int>)
    ensures forall n :: n in ls <==> 1 <= n <= 5
    ensures forall i :: 0 <= i < |ls| ==> ls[i] == i + 1
  {
    [1, 2, 3, 4, 5]
  }

  /** `ms.find(mood => mood.id === selected)`: the first mood with that id. */
  function FindMood(ms: seq<MoodOption>, selected: Option<string>): (r: Option<MoodOption>)
    ensures r.Some? ==> r.value in ms && selected == Some(r.value.id)
    ensures r.None? <==> forall i :: 0 <= i < |ms| ==> selected != Some(ms[i].id)
  {
    if ms == [] then None
    else if selected == Some(ms[0].id) then Some(ms[0])
    else FindMood(ms[1..], selected)
  }

  /** `selectedMoodData`: with distinct ids the lookup finds the one mood
      whose id is selected, and nothing when no mood is selected or the id
      is not in the table. */
  lemma SelectedMoodDataUnique(selected: Option<string>, i: nat)
    requires i < |Moods()| && selected == Some(Moods()[i].id)
    ensures FindMood(Moods(), selected) == Some(Moods()[i])
  {
  }

  lemma SelectedMoodDataAbsent(selected: Option<string>)
    requires selected.None? || forall i :: 0 <= i < |Moods()| ==> Moods()[i].id != selected.value
    ensures FindMood(Moods(), selected) == None
  {
  }

  class MoodCheckIn {
    var selectedMood: Option<string>
    var selectedIntensity: Option<int>

    constructor ()
      ensures selectedMood == None && selectedIntensity == None
    {
      selectedMood := None;
      selectedIntensity := None;
    }

    /** A mood button: replaces the mood, keeps the intensity. */
    method SelectMood(id: string)
      modifies this`selectedMood
      ensures selectedMood == Some(id) && selectedIntensity == old(selectedIntensity)
    {
      selectedMood := Some(id);
    }

    /** An intensity button: replaces the intensity, keeps the mood. */
    method SelectIntensity(level: int)
      modifies this`selectedIntensity
      ensures selectedIntensity == Some(level) && selectedMood == old(selectedMood)
    {
      selectedIntensity := Some(level);
    }

    /** `selectedMood && selectedIntensity`: both chosen, read with
        JavaScript truthiness (an empty id or a zero intensity is false).
        The save button is shown under the same condition. */
    predicate BothSelected()
      reads this
    {
      selectedMood.Some? && selectedMood.value != "" && selectedIntensity.Some? && selectedIntensity.value != 0
    }

    /** `handleSaveMood`: with both chosen, logs the entry and goes to the
        dashboard; otherwise does nothing. Changes no state. */
    method SaveMood() returns (nav: Nav, logged: Option<(string, int)>)
      ensures nav == NavigateTo(Dashboard) <==> BothSelected()
      ensures nav == Stay <==> !BothSelected()
      ensures logged.Some? <==> BothSelected()
      ensures logged.Some? ==> Some(logged.value.0) == selectedMood && Some(logged.value.1) == selectedIntensity
    {
      if BothSelected() {
        logged := Some((selectedMood.value, selectedIntensity.value));
        nav := NavigateTo(Dashboard);
      } else {
        logged := None;
        nav := Stay;
      }
    }

    /** Choosing any listed mood and any listed intensity, in either order,
        makes the check-in savable. */
    lemma ChoicesMakeSavable(i: nat, level: int)
      requires i < |Moods()| && level in IntensityLevels()
      requires selectedMood == Some(Moods()[i].id) && selectedIntensity == Some(level)
      ensures BothSelected()
    {
    }
  }
}
