/** The growth challenges screen: a fixed list of challenges, each marked
    done or not by toggling its id in `completedChallenges`. */
module Challenges {
  import opened Selection

  datatype Challenge = Challenge(id: string, title: string, progress: int, target: int, kind: string)

  /** The `challenges` table (icons, colours and descriptions left out). */
  function AllChallenges(): (cs: seq<Challenge>)
    ensures |cs| == 4
    ensures forall i, j :: 0 <= i < j < |cs| ==> cs[i].id != cs[j].id
  {
    [ Challenge("hydration", "Hydration Hero", 5, 7, "daily"),
      Challenge("gratitude", "Gratitude Garden", 12, 30, "daily"),
      Challenge("mindfulness", "Mindful Moments", 8, 14, "daily"),
      Challenge("reflection", "Reflection Streak", 15, 21, "streak") ]
  }

  /** The button label of a challenge card (`isCompleted ? "Done" : "Mark"`):
      "Done" exactly when its id is in the completed list, whatever its
      progress and target. */
  function StatusLabel(completed: seq<string>, c: Challenge): (caption: string)
    ensures caption == "Done" <==> c.id in completed
    ensures caption == "Mark" <==> c.id !in completed
  {
    if c.id in completed then "Done" else "Mark"
  }

  class ChallengesScreen {
    var completedChallenges: seq<string>

    ghost predicate Valid()
      reads this
    {
      Distinct(completedChallenges)
    }

    constructor ()
      ensures Valid() && completedChallenges == []
    {
      completedChallenges := [];
    }

    /** `toggleChallengeComplete`: an id that is not there is appended, one
        that is there is removed; no other id changes membership. */
    method ToggleChallengeComplete(challengeId: string)
      requires Valid()
      modifies this
      ensures Valid()
      ensures completedChallenges == Toggle(old(completedChallenges), challengeId)
      ensures challengeId !in old(completedChallenges) ==> completedChallenges == old(completedChallenges) + [challengeId]
      ensures challengeId in old(completedChallenges) ==> challengeId !in completedChallenges
      ensures forall id :: id != challengeId ==> (id in completedChallenges <==> id in old(completedChallenges))
    {
      ToggleDistinct(completedChallenges, challengeId);
      completedChallenges := Toggle(completedChallenges, challengeId);
    }
  }
}
