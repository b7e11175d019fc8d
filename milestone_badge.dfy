/** The milestone badge: a counter of one activity is placed on a fixed
    ladder of five thresholds, which gives the badge's level, its colour and
    its title, and reaching a threshold exactly plays an unlock animation. */
module MilestoneBadge {
  import opened Screen

  datatype BadgeKind = Reflection | Gratitude | Mood | Consistency

  datatype Icon = Sparkles | Heart | Star | Award

  /** Each threshold is larger than the one before. */
  predicate StrictlyIncreasing(ts: seq<int>) {
    forall i, j :: 0 <= i < j < |ts| ==> ts[i] < ts[j]
  }

  /** The `milestones` table. */
  function Thresholds(kind: BadgeKind): (ts: seq<int>)
    ensures |ts| == 5 && StrictlyIncreasing(ts) && 1 <= ts[0]
  {
    match kind
    case Reflection => [1, 3, 7, 14, 30]
    case Gratitude => [1, 5, 10, 21, 50]
    case Mood => [1, 7, 14, 30, 60]
    case Consistency => [3, 7, 14, 21, 30]
  }

  /** `ts.filter(level => count >= level).length`. */
  function CountReached(ts: seq<int>, count: int): (n: nat)
    ensures n <= |ts|
  {
    if ts == [] then 0
    else (if count >= ts[0] then 1 else 0) + CountReached(ts[1..], count)
  }

  /** `getMilestoneLevel`. */
  function Level(kind: BadgeKind, count: int): (level: nat)
    ensures level <= 5
  {
    CountReached(Thresholds(kind), count)
  }

  /** On an increasing table the thresholds reached are exactly the first
      `CountReached` ones. */
  lemma {:induction false} ReachedIsPrefix(ts: seq<int>, count: int)
    requires StrictlyIncreasing(ts)
    ensures forall i :: 0 <= i < |ts| ==> (count >= ts[i] <==> i < CountReached(ts, count))
  {
    if ts != [] {
      assert StrictlyIncreasing(ts[1..]);
      ReachedIsPrefix(ts[1..], count);
      forall i | 0 <= i < |ts| ensures count >= ts[i] <==> i < CountReached(ts, count) {
        if i > 0 {
          assert ts[1..][i - 1] == ts[i];
        } else if count < ts[0] {
          assert forall k :: 0 <= k < |ts| - 1 ==> ts[1..][k] > count;
        }
      }
    }
  }

  /** The level is the number of thresholds the count has reached: the
      first `level` thresholds are reached and the others are not. */
  lemma LevelCountsReachedThresholds(kind: BadgeKind, count: int)
    ensures forall i :: 0 <= i < 5 ==> (Thresholds(kind)[i] <= count <==> i < Level(kind, count))
  {
    ReachedIsPrefix(Thresholds(kind), count);
  }

  lemma {:induction false} CountReachedMonotone(ts: seq<int>, c1: int, c2: int)
    requires c1 <= c2
    ensures CountReached(ts, c1) <= CountReached(ts, c2)
  {
    if ts != [] {
      CountReachedMonotone(ts[1..], c1, c2);
    }
  }

  /** A larger count never gives a lower level. */
  lemma LevelMonotone(kind: BadgeKind, c1: int, c2: int)
    requires c1 <= c2
    ensures Level(kind, c1) <= Level(kind, c2)
  {
    CountReachedMonotone(Thresholds(kind), c1, c2);
  }

  /** `ts.find(level => count < level)`. */
  function FindAbove(ts: seq<int>, count: int): (r: Option<int>)
    ensures r.Some? ==> r.value in ts && count < r.value
    ensures r.None? <==> forall i :: 0 <= i < |ts| ==> ts[i] <= count
  {
    if ts == [] then None
    else if count < ts[0] then Some(ts[0])
    else FindAbove(ts[1..], count)
  }

  lemma {:induction false} FindAboveFirst(ts: seq<int>, count: int)
    requires StrictlyIncreasing(ts)
    ensures CountReached(ts, count) < |ts| ==> FindAbove(ts, count) == Some(ts[CountReached(ts, count)])
  {
    ReachedIsPrefix(ts, count);
    if ts != [] && count >= ts[0] {
      assert StrictlyIncreasing(ts[1..]);
      FindAboveFirst(ts[1..], count);
      var k := CountReached(ts[1..], count);
      if k < |ts| - 1 {
        assert ts[1..][k] == ts[k + 1];
      }
    }
  }

  /** `getNextMilestone`: the first threshold above the count, or (through
      `||`, which also passes over a zero) the last threshold. */
  function NextMilestone(kind: BadgeKind, count: int): int {
    var ts := Thresholds(kind);
    match FindAbove(ts, count)
    case Some(t) => if t != 0 then t else ts[|ts| - 1]
    case None => ts[|ts| - 1]
  }

  /** The next milestone is the smallest threshold above the count, the one
      at position `level`; once every threshold is reached it is the last. */
  lemma NextMilestoneIsSmallestAbove(kind: BadgeKind, count: int)
    ensures var ts := Thresholds(kind); var m := NextMilestone(kind, count);
      && (count >= ts[4] ==> m == ts[4])
      && (count < ts[4] ==>
            Level(kind, count) < 5 && m == ts[Level(kind, count)] && m > count &&
            forall i :: 0 <= i < 5 && ts[i] > count ==> m <= ts[i])
  {
    var ts := Thresholds(kind);
    FindAboveFirst(ts, count);
    ReachedIsPrefix(ts, count);
  }

  /** The `colors` entries of each badge's configuration. */
  function Colors(kind: BadgeKind): (cs: seq<string>)
    ensures |cs| == 3
  {
    match kind
    case Reflection => ["from-lavender-mist to-cosmic-lilac", "from-cosmic-lilac to-bubblegum-pink", "from-bubblegum-pink to-sunshine-peach"]
    case Gratitude => ["from-sunshine-peach to-lemon-zest", "from-bubblegum-pink to-sunshine-peach", "from-electric-mint to-sky-glow"]
    case Mood => ["from-sky-glow to-electric-mint", "from-electric-mint to-sunshine-peach", "from-lavender-mist to-cosmic-lilac"]
    case Consistency => ["from-lemon-zest to-sunshine-peach", "from-sunshine-peach to-bubblegum-pink", "from-cosmic-lilac to-lavender-mist"]
  }

  const GreyColor: string := "from-gray-200 to-gray-300"
  const StarterTitle: string := "Getting Started"

  /** The `titles` entries of each badge's configuration: five different
      titles, none of them the starter title. */
  function Titles(kind: BadgeKind): (ts: seq<string>)
    ensures |ts| == 5 && StarterTitle !in ts
    ensures forall i, j :: 0 <= i < j < 5 ==> ts[i] != ts[j]
  {
    match kind
    case Reflection => ["Thoughtful Soul", "Deep Thinker", "Wisdom Seeker", "Reflection Master", "Mindful Sage"]
    case Gratitude => ["Grateful Heart", "Thankful Spirit", "Appreciation Angel", "Gratitude Guru", "Blessing Counter"]
    case Mood => ["Mood Tracker", "Feeling Explorer", "Emotion Expert", "Mood Master", "Feeling Sage"]
    case Consistency => ["Consistent Star", "Daily Champion", "Habit Hero", "Routine Royalty", "Consistency King/Queen"]
  }

  function IconOf(kind: BadgeKind): Icon {
    match kind
    case Reflection => Sparkles
    case Gratitude => Heart
    case Mood => Star
    case Consistency => Award
  }

  /** `Math.min(level - 1, colorCount - 1)`. */
  function ColorIndex(level: int, colorCount: int): (k: int)
    ensures k <= colorCount - 1 && k <= level - 1
    ensures k == level - 1 || k == colorCount - 1
  {
    if level - 1 <= colorCount - 1 then level - 1 else colorCount - 1
  }

  datatype BadgeInfo = BadgeInfo(icon: Icon, color: string, title: string, level: nat)

  /** `getBadgeInfo`. */
  function GetBadgeInfo(kind: BadgeKind, count: int): BadgeInfo {
    var level := Level(kind, count);
    var k := ColorIndex(level, |Colors(kind)|);
    BadgeInfo(
      IconOf(kind),
      if level > 0 then Colors(kind)[k] else GreyColor,
      if level > 0 then Titles(kind)[level - 1] else StarterTitle,
      level)
  }

  /** Below the first threshold the badge is grey and "Getting Started";
      at level `l >= 1` it carries title `l - 1` and colour `min(l - 1, 2)`,
      both inside their tables. */
  lemma BadgeInfoByLevel(kind: BadgeKind, count: int)
    ensures var b := GetBadgeInfo(kind, count);
      && b.level == Level(kind, count)
      && (count < Thresholds(kind)[0] <==> b.level == 0)
      && (b.level == 0 ==> b.color == GreyColor && b.title == StarterTitle)
      && (b.level >= 1 ==>
            var k := ColorIndex(b.level, 3);
            0 <= k < |Colors(kind)| && b.level - 1 < |Titles(kind)| &&
            b.color == Colors(kind)[k] && b.title == Titles(kind)[b.level - 1])
  {
    ReachedIsPrefix(Thresholds(kind), count);
  }

  /** The title tells the level: two counts with the same title sit on the
      same level, and only level 0 shows "Getting Started". */
  lemma TitleDeterminesLevel(kind: BadgeKind, c1: int, c2: int)
    requires GetBadgeInfo(kind, c1).title == GetBadgeInfo(kind, c2).title
    ensures Level(kind, c1) == Level(kind, c2)
  {
  }

  /** What the component renders: nothing at level 0, otherwise the badge,
      with the sparkles while the animation is on. */
  datatype BadgeView = BadgeView(info: BadgeInfo, animating: bool)

  function Render(kind: BadgeKind, count: int, showAnimation: bool): (v: Option<BadgeView>)
    ensures v.None? <==> count < Thresholds(kind)[0]
    ensures v.Some? ==> v.value.info == GetBadgeInfo(kind, count) && v.value.animating == showAnimation
  {
    ReachedIsPrefix(Thresholds(kind), count);
    var info := GetBadgeInfo(kind, count);
    if info.level == 0 then None else Some(BadgeView(info, showAnimation))
  }

  /** `milestones[type].includes(count)`. */
  predicate IsThreshold(kind: BadgeKind, count: int) {
    count in Thresholds(kind)
  }

  /** The animation plays exactly at the counts where one more step up
      raises the level: a count is a threshold iff its level is above that of
      the count just below it. */
  lemma ThresholdIffLevelUp(kind: BadgeKind, count: int)
    ensures IsThreshold(kind, count) <==> Level(kind, count - 1) < Level(kind, count)
  {
    var ts := Thresholds(kind);
    ReachedIsPrefix(ts, count);
    ReachedIsPrefix(ts, count - 1);
    var a, b := Level(kind, count - 1), Level(kind, count);
    if a < b {
      assert ts[a] <= count && !(count - 1 >= ts[a]);
      assert ts[a] == count;
    }
  }

  /** The mounted component: its props and its `showAnimation` state. */
  class Badge {
    var kind: BadgeKind
    var count: int
    var showAnimation: bool

    /** Mounting runs the effect once with the first props. */
    constructor (kind: BadgeKind, count: int)
      ensures this.kind == kind && this.count == count
      ensures showAnimation == IsThreshold(kind, count)
    {
      this.kind := kind;
      this.count := count;
      showAnimation := IsThreshold(kind, count);
    }

    /** New props; the effect reruns only when `count` or `type` changed, and
        then switches the animation on at a threshold, leaving it as it was
        otherwise. */
    method SetProps(kind: BadgeKind, count: int)
      modifies this
      ensures this.kind == kind && this.count == count
      ensures showAnimation ==
        if (kind != old(this.kind) || count != old(this.count)) && IsThreshold(kind, count)
        then true else old(showAnimation)
    {
      var changed := kind != this.kind || count != this.count;
      this.kind := kind;
      this.count := count;
      if changed && IsThreshold(kind, count) {
        showAnimation := true;
      }
    }

    /** The 3000 ms timer the effect started. */
    method AnimationTimerFires()
      modifies this`showAnimation
      ensures !showAnimation
    {
      showAnimation := false;
    }

    function View(): (v: Option<BadgeView>)
      reads this
      ensures v.None? <==> count < Thresholds(kind)[0]
      ensures v.Some? ==> v.value.info == GetBadgeInfo(kind, count) && v.value.animating == showAnimation
      ensures v.Some? ==> v.value.info.level == Level(kind, count) >= 1
    {
      Render(kind, count, showAnimation)
    }
  }
}
