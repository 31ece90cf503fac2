/**
 The per-user learning-progress record of the vocabulary bot and the pure
 transitions on it: the weekly reset, batch selection, the scheduling pass
 over the fixed notification hours, skip and mark-learned.

 The environment `bot.py` reads (wall clock, ISO week, weekday, the random
 shuffle and the element `set.pop()` removes) is passed in as arguments.
 */
module Progress {

  datatype Option<T> = None | Some(value: T)

  /** A word of the catalog; the catalog is keyed by the word itself. */
  type WordId = string

  /** `word_database`: word -> translation. */
  type Catalog = map<WordId, string>

  /** The goal every freshly started record gets. */
  const DefaultGoal: int := 100

  /** How many words one notification slot takes (`words_to_learn[:3]`). */
  const BatchSize: nat := 3

  /** The fixed local hours of the day at which a batch is pushed. */
  const NotificationHours: seq<int> := [10, 15, 20]

  /** `datetime.weekday()` of the day on which the test reminder is sent (Sunday). */
  const TestWeekday: int := 6

  /** One entry of `user_progress`. `currentWeek` is None while the key is absent. */
  datatype UserProgress = UserProgress(
    goal: int,
    currentWords: set<WordId>,
    learnedWords: set<WordId>,
    currentWeek: Option<int>)

  /** The record `start` stores: goal 100, no words, no week yet, so the
      first pass after it always starts a new learning week. */
  function Fresh(): (r: UserProgress)
    ensures r.goal == DefaultGoal && r.currentWords == {} && r.learnedWords == {}
    ensures forall week :: ResetDue(r, week)
  {
    UserProgress(DefaultGoal, {}, {}, None)
  }

  /** The invariant of a record: current and learned words are disjoint
      catalog words. */
  ghost predicate Valid(p: UserProgress, catalog: Catalog)
  {
    && p.currentWords !! p.learnedWords
    && p.currentWords <= catalog.Keys
    && p.learnedWords <= catalog.Keys
  }

  // ---------------------------------------------------------------------
  // Sequences as `bot.py`'s lists

  function Elements(s: seq<WordId>): set<WordId>
  {
    set w | w in s
  }

  ghost predicate Distinct(s: seq<WordId>)
  {
    forall i, j :: 0 <= i < j < |s| ==> s[i] != s[j]
  }

  /** `s` lists every word of `keys` exactly once, as a shuffle of the keys does. */
  ghost predicate IsArrangement(s: seq<WordId>, keys: set<WordId>)
  {
    Distinct(s) && Elements(s) == keys
  }

  /** One arrangement of the catalog keys per notification slot. */
  ghost predicate ShufflesFor(shuffles: seq<seq<WordId>>, catalog: Catalog)
  {
    && |shuffles| == |NotificationHours|
    && forall i :: 0 <= i < |shuffles| ==> IsArrangement(shuffles[i], catalog.Keys)
  }

  function Min(a: int, b: int): int
  {
    if a <= b then a else b
  }

  // ---------------------------------------------------------------------
  // Weekly reset

  /** The condition under which a pass starts a new learning week. */
  predicate ResetDue(p: UserProgress, week: int)
  {
    p.currentWeek.None? || p.currentWeek.value < week
  }

  /** Clears the current words and records `week` when the stored week is
      absent or strictly smaller; leaves the record alone otherwise. */
  function WeeklyReset(p: UserProgress, week: int): (q: UserProgress)
    ensures q == p <==> !ResetDue(p, week)
    ensures q != p ==> q.currentWords == {} && q.currentWeek == Some(week)
    ensures q.goal == p.goal && q.learnedWords == p.learnedWords
    ensures q.currentWords <= p.currentWords
    ensures q.currentWeek.Some? && q.currentWeek.value >= week
  {
    if ResetDue(p, week) then p.(currentWords := {}, currentWeek := Some(week)) else p
  }

  // ---------------------------------------------------------------------
  // Batch selection

  /** The list comprehension that drops learned words, keeping the order. */
  function Unlearned(s: seq<WordId>, learned: set<WordId>): (r: seq<WordId>)
    ensures |r| <= |s|
    ensures forall w :: w in r <==> w in s && w !in learned
  {
    if s == [] then []
    else if s[0] in learned then Unlearned(s[1..], learned)
    else [s[0]] + Unlearned(s[1..], learned)
  }

  /** The words one slot sends: the first three unlearned words of the shuffle. */
  function Batch(shuffled: seq<WordId>, learned: set<WordId>): (r: seq<WordId>)
    ensures |r| <= BatchSize
    ensures forall w :: w in r ==> w in shuffled && w !in learned
  {
    var candidates := Unlearned(shuffled, learned);
    if |candidates| <= BatchSize then candidates else candidates[..BatchSize]
  }

  /** `current_words.update(batch)`: a union, never a replacement. */
  function SelectBatch(p: UserProgress, shuffled: seq<WordId>): (q: UserProgress)
    ensures p.currentWords <= q.currentWords
    ensures forall w :: w in q.currentWords && w !in p.currentWords ==> w in shuffled && w !in p.learnedWords
    ensures q.learnedWords == p.learnedWords && q.goal == p.goal && q.currentWeek == p.currentWeek
  {
    p.(currentWords := p.currentWords + Elements(Batch(shuffled, p.learnedWords)))
  }

  // ---------------------------------------------------------------------
  // The scheduling pass

  /** The first `n` notification hours that are strictly after `hour`, in
      the order the pass visits them. */
  function FiredHours(hour: int, n: nat): (r: seq<int>)
    requires n <= |NotificationHours|
    ensures forall j, k :: 0 <= j < k < |r| ==> r[j] < r[k]
    ensures forall h :: h in r <==> h in NotificationHours[..n] && hour < h
  {
    if n == 0 then []
    else
      var earlier := FiredHours(hour, n - 1);
      assert NotificationHours[..n] == NotificationHours[..n - 1] + [NotificationHours[n - 1]];
      AllBelow(earlier, n - 1);
      if hour < NotificationHours[n - 1] then earlier + [NotificationHours[n - 1]] else earlier
  }

  /** The notification hours are listed in increasing order. */
  lemma HoursIncrease(i: nat)
    requires i < |NotificationHours|
    ensures forall h :: h in NotificationHours[..i] ==> h < NotificationHours[i]
  {
    assert NotificationHours == [10, 15, 20];
    assert i == 0 || i == 1 || i == 2;
    assert NotificationHours[..1] == [10] && NotificationHours[..2] == [10, 15];
  }

  lemma AllBelow(earlier: seq<int>, i: nat)
    requires i < |NotificationHours|
    requires forall h :: h in earlier ==> h in NotificationHours[..i]
    ensures forall k :: 0 <= k < |earlier| ==> earlier[k] < NotificationHours[i]
  {
    HoursIncrease(i);
    forall k | 0 <= k < |earlier| ensures earlier[k] < NotificationHours[i] {
      assert earlier[k] in earlier;
    }
  }

  /** Slot `i` of a pass: it selects a batch when its hour is strictly after `hour`. */
  function Slot(p: UserProgress, hour: int, shuffles: seq<seq<WordId>>, i: nat): (q: UserProgress)
    requires i < |NotificationHours| == |shuffles|
    ensures hour >= NotificationHours[i] ==> q == p
    ensures p.currentWords <= q.currentWords
    ensures forall w :: w in q.currentWords && w !in p.currentWords ==> w in shuffles[i] && w !in p.learnedWords
    ensures q.learnedWords == p.learnedWords && q.goal == p.goal && q.currentWeek == p.currentWeek
  {
    if hour < NotificationHours[i] then SelectBatch(p, shuffles[i]) else p
  }

  /** The record after the first `n` slots of a pass. */
  function RunSlots(p: UserProgress, hour: int, shuffles: seq<seq<WordId>>, n: nat): (q: UserProgress)
    requires n <= |NotificationHours| == |shuffles|
    ensures p.currentWords <= q.currentWords
    ensures forall w :: w in q.currentWords && w !in p.currentWords ==> w !in p.learnedWords
    ensures q.learnedWords == p.learnedWords && q.goal == p.goal && q.currentWeek == p.currentWeek
  {
    if n == 0 then p else Slot(RunSlots(p, hour, shuffles, n - 1), hour, shuffles, n - 1)
  }

  /** The batches the first `n` slots send, one per fired slot, in slot order. */
  function SentBatches(p: UserProgress, hour: int, shuffles: seq<seq<WordId>>, n: nat): (r: seq<seq<WordId>>)
    requires n <= |NotificationHours| == |shuffles|
    ensures |r| <= n
    ensures forall b :: b in r ==> |b| <= BatchSize && forall w :: w in b ==> w !in p.learnedWords
  {
    if n == 0 then []
    else if hour < NotificationHours[n - 1] then
      SentBatches(p, hour, shuffles, n - 1)
        + [Batch(shuffles[n - 1], RunSlots(p, hour, shuffles, n - 1).learnedWords)]
    else SentBatches(p, hour, shuffles, n - 1)
  }

  /** `send_word_to_user` on one record: the weekly reset, then every slot. */
  function Pass(p: UserProgress, hour: int, week: int, shuffles: seq<seq<WordId>>): (q: UserProgress)
    requires |shuffles| == |NotificationHours|
    ensures !ResetDue(p, week) ==> p.currentWords <= q.currentWords
    ensures p.currentWords !! p.learnedWords ==> q.currentWords !! q.learnedWords
    ensures q.learnedWords == p.learnedWords && q.goal == p.goal
    ensures q.currentWeek.Some? && q.currentWeek.value >= week
  {
    RunSlots(WeeklyReset(p, week), hour, shuffles, |NotificationHours|)
  }

  /** The batches `send_word_to_user` sends, in slot order. */
  function PassBatches(p: UserProgress, hour: int, week: int, shuffles: seq<seq<WordId>>): (r: seq<seq<WordId>>)
    requires |shuffles| == |NotificationHours|
    ensures |r| <= |NotificationHours|
    ensures forall b :: b in r ==> |b| <= BatchSize && forall w :: w in b ==> w !in p.learnedWords
  {
    SentBatches(WeeklyReset(p, week), hour, shuffles, |NotificationHours|)
  }

  /** Every word of a list of batches. */
  function Words(batches: seq<seq<WordId>>): set<WordId>
  {
    if batches == [] then {}
    else Words(batches[..|batches| - 1]) + Elements(batches[|batches| - 1])
  }

  // ---------------------------------------------------------------------
  // Skip and mark learned; `w` is the element `current_words.pop()` returned

  /** `skip`: the popped word leaves the current words and is not learned. */
  function Skip(p: UserProgress, w: WordId): (q: UserProgress)
    requires w in p.currentWords
    ensures w !in q.currentWords && q.currentWords + {w} == p.currentWords
    ensures |q.currentWords| == |p.currentWords| - 1
    ensures q.learnedWords == p.learnedWords && q.goal == p.goal && q.currentWeek == p.currentWeek
  {
    p.(currentWords := p.currentWords - {w})
  }

  /** `learned`: the popped word moves from the current to the learned words. */
  function MarkLearned(p: UserProgress, w: WordId): (q: UserProgress)
    requires w in p.currentWords
    ensures w !in q.currentWords && q.currentWords + {w} == p.currentWords
    ensures |q.currentWords| == |p.currentWords| - 1
    ensures w in q.learnedWords && q.learnedWords == p.learnedWords + {w}
    ensures w !in p.learnedWords ==> |q.learnedWords| == |p.learnedWords| + 1
    ensures q.goal == p.goal && q.currentWeek == p.currentWeek
  {
    p.(currentWords := p.currentWords - {w}, learnedWords := p.learnedWords + {w})
  }

  // ---------------------------------------------------------------------
  // Read-only queries

  /** The catalog entries of `words`, as `test` and `learned` list them. */
  function Translations(words: set<WordId>, catalog: Catalog): (r: map<WordId, string>)
    requires words <= catalog.Keys
    ensures r.Keys == words
    ensures forall w :: w in r ==> r[w] == catalog[w]
  {
    map w | w in words :: catalog[w]
  }
}
