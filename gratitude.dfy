/** The gratitude tracker: prompts that fill the input, and items appended
    to the day's list with a short celebration. */
module GratitudeTracker {
  import opened JsString

  /** The six prompt buttons. */
  function Prompts(): (ps: seq<string>)
    ensures |ps| == 6
  {
    [
    "A person who made you smile today",
    "Something beautiful you noticed",
    "A comfort that brought you peace",
    "A small victory you achieved",
    "Something that made you laugh",
    "A moment of unexpected kindness"
    ]
  }

  class GratitudeScreen {
    var gratitudeItems: seq<string>
    var newGratitude: string
    var showCelebration: bool

    constructor ()
      ensures gratitudeItems == [] && newGratitude == "" && !showCelebration
    {
      gratitudeItems := [];
      newGratitude := "";
      showCelebration := false;
    }

    /** The number shown as the day's count. */
    function Count(): nat
      reads this
    {
      |gratitudeItems|
    }

    /** Typing in the input. */
    method SetInput(value: string)
      modifies this`newGratitude
      ensures newGratitude == value
    {
      newGratitude := value;
    }

    /** A prompt button puts exactly that prompt's text in the input. */
    method ChoosePrompt(index: nat)
      requires index < |Prompts()|
      modifies this`newGratitude
      ensures newGratitude == Prompts()[index]
    {
      newGratitude := Prompts()[index];
    }

    /** `addGratitude`: a blank input changes nothing; otherwise the input,
        untrimmed, is appended, the input is cleared, the count goes up by
        one and the celebration starts. */
    method AddGratitude() returns (added: bool)
      modifies this
      ensures added <==> !IsBlank(old(newGratitude))
      ensures added ==>
        && gratitudeItems == old(gratitudeItems) + [old(newGratitude)]
        && Count() == old(Count()) + 1
        && newGratitude == "" && showCelebration
      ensures !added ==>
        gratitudeItems == old(gratitudeItems) && newGratitude == old(newGratitude) && showCelebration == old(showCelebration)
    {
      TrimEmptyIffBlank(newGratitude);
      added := HasText(newGratitude);
      if added {
        gratitudeItems := gratitudeItems + [newGratitude];
        newGratitude := "";
        showCelebration := true;
      }
    }

    /** The 1500 ms timer a successful add started. */
    method CelebrationTimerFires()
      modifies this`showCelebration
      ensures !showCelebration
    {
      showCelebration := false;
    }
  }
}
