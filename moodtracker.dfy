// The mood garden: the user picks a mood (1 to 5), optionally types a note,
// and saves it into a history of the last seven entries; the garden's level
// is a step function of the average mood. "Today" is passed in as a date string.

module MoodTracker {
  import opened Optional

  datatype MoodEntry = MoodEntry(date: string, mood: int, notes: string)

  /** The history keeps this many most recent entries. */
  const HistoryCap: nat := 7

  function Min(a: int, b: int): int {
    if a < b then a else b
  }

  /** The history after saving `entry`: the entry first, then the six most recent old ones. */
  function Record(history: seq<MoodEntry>, entry: MoodEntry): (r: seq<MoodEntry>)
    ensures |r| == Min(|history| + 1, HistoryCap)
    ensures r[0] == entry
    ensures forall i | 1 <= i < |r| :: r[i] == history[i - 1]
  {
    [entry] + history[..Min(|history|, HistoryCap - 1)]
  }

  /** The screen's state. */
  datatype Tracker = Tracker(selectedMood: Option<int>, notes: string, showNoteInput: bool, history: seq<MoodEntry>)

  /** `handleMoodSelect`: remember the mood and open the note input. */
  function SelectMood(t: Tracker, mood: int): (r: Tracker)
    ensures r.selectedMood == Some(mood) && r.showNoteInput
    ensures r.history == t.history && r.notes == t.notes
  {
    t.(selectedMood := Some(mood), showNoteInput := true)
  }

  /** A mood is selected in the truthy sense `if (selectedMood)` tests: present and not 0. */
  predicate HasMood(t: Tracker) {
    t.selectedMood.Some? && t.selectedMood.value != 0
  }

  /** `handleSubmit`: with no mood selected nothing happens; otherwise the entry
      for today is recorded and the form is reset. */
  function Submit(t: Tracker, today: string): (r: Tracker)
    ensures !HasMood(t) ==> r == t
    ensures HasMood(t) ==>
      && r.history == Record(t.history, MoodEntry(today, t.selectedMood.value, t.notes))
      && r.selectedMood == None && r.notes == "" && !r.showNoteInput
  {
    if HasMood(t) then
      Tracker(None, "", false, Record(t.history, MoodEntry(today, t.selectedMood.value, t.notes)))
    else t
  }

  predicate MoodsInRange(h: seq<MoodEntry>) {
    forall i | 0 <= i < |h| :: 1 <= h[i].mood <= 5
  }

  /** Saving keeps the history within seven entries and every mood within [1, 5]. */
  lemma SubmitKeepsHistoryValid(t: Tracker, today: string)
    requires |t.history| <= HistoryCap && MoodsInRange(t.history)
    requires t.selectedMood.Some? ==> 1 <= t.selectedMood.value <= 5
    ensures |Submit(t, today).history| <= HistoryCap
    ensures MoodsInRange(Submit(t, today).history)
  {
  }

  // ---------------------------------------------------------------------------
  // Average and garden level

  /** The total of the moods, accumulated left to right as
      `reduce((sum, e) => sum + e.mood, 0)` does; with moods in [1, 5] it lies
      between the count and five times the count. */
  function Sum(h: seq<MoodEntry>): (s: int)
    ensures MoodsInRange(h) ==> |h| <= s <= 5 * |h|
  {
    if h == [] then 0
    else
      assert MoodsInRange(h) ==> MoodsInRange(h[..|h| - 1]);
      Sum(h[..|h| - 1]) + h[|h| - 1].mood
  }

  /** `averageMood`: the mean of the moods, 0 for an empty history, computed exactly. */
  function AverageMood(h: seq<MoodEntry>): (a: real)
    ensures h == [] ==> a == 0.0
    ensures h != [] ==> a == Sum(h) as real / |h| as real
  {
    if |h| > 0 then Sum(h) as real / |h| as real else 0.0
  }

  /** With moods in [1, 5] the average lies in [1, 5], or is 0 for no entries. */
  lemma AverageMoodBounds(h: seq<MoodEntry>)
    requires MoodsInRange(h)
    ensures h == [] ==> AverageMood(h) == 0.0
    ensures h != [] ==> 1.0 <= AverageMood(h) <= 5.0
  {
    if h != [] {
      var s, n := Sum(h) as real, |h| as real;
      assert n <= s <= 5.0 * n;
      DivBetween(s, n);
    }
  }

  lemma DivBetween(s: real, n: real)
    requires 0.0 < n && n <= s <= 5.0 * n
    ensures 1.0 <= s / n <= 5.0
  {
  }

  datatype GardenLevel = Seedling | Sprouting | Budding | Growing | Flourishing

  /** Position of a level from Seedling (0) up to Flourishing (4). */
  function Rank(g: GardenLevel): nat {
    match g
    case Seedling => 0
    case Sprouting => 1
    case Budding => 2
    case Growing => 3
    case Flourishing => 4
  }

  /** `getGardenLevel`: the first threshold met, checked from the top. Each
      average falls in exactly one of five contiguous bands. */
  function GardenLevelOf(avg: real): (g: GardenLevel)
    ensures g == Flourishing <==> 4.5 <= avg
    ensures g == Growing <==> 3.5 <= avg < 4.5
    ensures g == Budding <==> 2.5 <= avg < 3.5
    ensures g == Sprouting <==> 1.5 <= avg < 2.5
    ensures g == Seedling <==> avg < 1.5
  {
    if avg >= 4.5 then Flourishing
    else if avg >= 3.5 then Growing
    else if avg >= 2.5 then Budding
    else if avg >= 1.5 then Sprouting
    else Seedling
  }

  /** A higher average never gives a lower level. */
  lemma GardenLevelMonotone(a: real, b: real)
    requires a <= b
    ensures Rank(GardenLevelOf(a)) <= Rank(GardenLevelOf(b))
  {
  }

  /** The level from the entry count and mood sum alone, with integer
      comparisons (avg >= k + 1/2 exactly when 2 * sum >= (2k + 1) * count). */
  function GardenLevelByCounts(sum: int, count: nat): GardenLevel {
    if count == 0 then Seedling
    else if 2 * sum >= 9 * count then Flourishing
    else if 2 * sum >= 7 * count then Growing
    else if 2 * sum >= 5 * count then Budding
    else if 2 * sum >= 3 * count then Sprouting
    else Seedling
  }

  /** The garden level of the average agrees with the integer classification. */
  lemma GardenLevelAgreesWithCounts(h: seq<MoodEntry>)
    ensures GardenLevelOf(AverageMood(h)) == GardenLevelByCounts(Sum(h), |h|)
  {
    if h != [] {
      AverageAtLeast(h, 9);
      AverageAtLeast(h, 7);
      AverageAtLeast(h, 5);
      AverageAtLeast(h, 3);
    }
  }

  /** The average reaches k/2 exactly when twice the sum reaches k times the count. */
  lemma AverageAtLeast(h: seq<MoodEntry>, k: int)
    requires h != []
    ensures AverageMood(h) >= k as real / 2.0 <==> 2 * Sum(h) >= k * |h|
  {
    MeanAtLeast(Sum(h), |h|, k);
  }

  /** For a positive count, sum / count >= k / 2 exactly when 2 * sum >= k * count. */
  lemma MeanAtLeast(s: int, n: int, k: int)
    requires 0 < n
    ensures s as real / n as real >= k as real / 2.0 <==> 2 * s >= k * n
  {
    ThresholdCrossMultiply(s as real, n as real, k as real);
    RealProduct(k, n);
  }

  lemma ThresholdCrossMultiply(s: real, n: real, k: real)
    requires 0.0 < n
    ensures s / n >= k / 2.0 <==> 2.0 * s >= k * n
  {
  }

  /** Converting to `real` commutes with multiplication. */
  lemma RealProduct(x: int, y: int)
    ensures (x * y) as real == x as real * y as real
  {
  }

  // ---------------------------------------------------------------------------
  // The screen's state and its handlers

  class MoodTrackerScreen {
    var selectedMood: Option<int>
    var notes: string
    var showNoteInput: bool
    var moodHistory: seq<MoodEntry>

    function State(): Tracker
      reads this
    {
      Tracker(selectedMood, notes, showNoteInput, moodHistory)
    }

    /** At most seven entries, each with a mood of 1 to 5, and any selected mood in that range. */
    predicate Valid()
      reads this
    {
      && |moodHistory| <= HistoryCap
      && MoodsInRange(moodHistory)
      && (selectedMood.Some? ==> 1 <= selectedMood.value <= 5)
    }

    /** The garden level shown for the current history. */
    function GardenStatus(): (g: GardenLevel)
      reads this
      ensures g == GardenLevelByCounts(Sum(moodHistory), |moodHistory|)
    {
      GardenLevelAgreesWithCounts(moodHistory);
      GardenLevelOf(AverageMood(moodHistory))
    }

    /** `seed` stands for the randomly generated week the screen opens with:
        seven entries with moods of 3 to 5. */
    constructor (seed: seq<MoodEntry>)
      requires |seed| == HistoryCap
      requires forall i | 0 <= i < |seed| :: 3 <= seed[i].mood <= 5
      ensures Valid()
      ensures State() == Tracker(None, "", false, seed)
    {
      selectedMood := None;
      notes := "";
      showNoteInput := false;
      moodHistory := seed;
    }

    /** A mood button; the five buttons pass the values 1 to 5. */
    method MoodSelect(mood: int)
      requires Valid() && 1 <= mood <= 5
      modifies this`selectedMood, this`showNoteInput
      ensures Valid()
      ensures State() == SelectMood(old(State()), mood)
    {
      selectedMood := Some(mood);
      showNoteInput := true;
    }

    /** The note field's `onChange`. */
    method SetNotes(text: string)
      modifies this`notes
      ensures State() == old(State()).(notes := text)
    {
      notes := text;
    }

    /** The note form's Cancel button: hides the input and keeps the selection and notes. */
    method CancelNote()
      modifies this`showNoteInput
      ensures State() == old(State()).(showNoteInput := false)
    {
      showNoteInput := false;
    }

    method HandleSubmit(today: string)
      requires Valid()
      modifies this`selectedMood, this`notes, this`showNoteInput, this`moodHistory
      ensures Valid()
      ensures State() == Submit(old(State()), today)
    {
      SubmitKeepsHistoryValid(State(), today);
      if selectedMood.Some? && selectedMood.value != 0 {
        var entry := MoodEntry(today, selectedMood.value, notes);
        moodHistory := [entry] + moodHistory[..Min(|moodHistory|, HistoryCap - 1)];
        selectedMood := None;
        notes := "";
        showNoteInput := false;
      }
    }
  }
}
