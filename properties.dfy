/**
 Properties of the learning-progress transitions: what a batch contains and
 how large it is, that selection is a union, what the weekly reset does and
 that it happens once, what a whole scheduling pass does, and that every
 transition keeps the record invariant (current and learned words disjoint,
 both within the catalog).
 */
module Properties {
  import opened Progress

  // ---------------------------------------------------------------------
  // Sequence and set facts

  lemma ElementsCons(x: WordId, s: seq<WordId>)
    ensures Elements([x] + s) == {x} + Elements(s)
  {
    assert forall w :: w in [x] + s <==> w == x || w in s;
  }

  lemma {:induction false} DistinctCard(s: seq<WordId>)
    requires Distinct(s)
    ensures |Elements(s)| == |s|
  {
    if s != [] {
      assert s == [s[0]] + s[1..];
      ElementsCons(s[0], s[1..]);
      assert s[0] !in s[1..];
      DistinctCard(s[1..]);
    }
  }

  lemma SubsetCard(a: set<WordId>, b: set<WordId>)
    requires a <= b
    ensures |a| <= |b|
  {
    assert b == a + (b - a);
  }

  lemma {:induction false} UnlearnedDistinct(s: seq<WordId>, learned: set<WordId>)
    requires Distinct(s)
    ensures Distinct(Unlearned(s, learned))
  {
    if s != [] {
      UnlearnedDistinct(s[1..], learned);
      if s[0] !in learned {
        var rest := Unlearned(s[1..], learned);
        assert s[0] !in s[1..];
        assert s[0] !in rest;
        var r := [s[0]] + rest;
        forall i, j | 0 <= i < j < |r| ensures r[i] != r[j] {
          if i == 0 {
            assert r[j] == rest[j - 1] && r[j] in rest;
          } else {
            assert r[i] == rest[i - 1] && r[j] == rest[j - 1];
          }
        }
      }
    }
  }

  // ---------------------------------------------------------------------
  // Batch selection

  /** A slot's batch holds min(3, number of unlearned catalog words) distinct
      unlearned catalog words, when the shuffle arranges the catalog keys. */
  lemma BatchSelection(shuffled: seq<WordId>, catalog: Catalog, learned: set<WordId>)
    requires IsArrangement(shuffled, catalog.Keys)
    ensures Distinct(Batch(shuffled, learned))
    ensures Elements(Batch(shuffled, learned)) <= catalog.Keys - learned
    ensures |Batch(shuffled, learned)| == Min(BatchSize, |catalog.Keys - learned|)
    ensures |Elements(Batch(shuffled, learned))| == Min(BatchSize, |catalog.Keys - learned|)
  {
    var candidates := Unlearned(shuffled, learned);
    UnlearnedDistinct(shuffled, learned);
    assert Elements(candidates) == catalog.Keys - learned;
    DistinctCard(candidates);
    var b := Batch(shuffled, learned);
    assert Distinct(b);
    DistinctCard(b);
  }

  /** Selection only adds: old current words stay, at most three join, all of
      them unlearned catalog words, and at least min(3, unlearned) words are
      current afterwards; nothing else in the record changes. */
  lemma SelectBatchGrowth(p: UserProgress, shuffled: seq<WordId>, catalog: Catalog)
    requires IsArrangement(shuffled, catalog.Keys)
    ensures p.currentWords <= SelectBatch(p, shuffled).currentWords
    ensures SelectBatch(p, shuffled).currentWords - p.currentWords <= catalog.Keys - p.learnedWords
    ensures |SelectBatch(p, shuffled).currentWords| <= |p.currentWords| + BatchSize
    ensures |SelectBatch(p, shuffled).currentWords| >= Min(BatchSize, |catalog.Keys - p.learnedWords|)
    ensures SelectBatch(p, shuffled).learnedWords == p.learnedWords
    ensures SelectBatch(p, shuffled).goal == p.goal
    ensures SelectBatch(p, shuffled).currentWeek == p.currentWeek
  {
    var added := Elements(Batch(shuffled, p.learnedWords));
    BatchSelection(shuffled, catalog, p.learnedWords);
    SubsetCard(added, p.currentWords + added);
  }

  lemma SelectBatchKeepsValid(p: UserProgress, shuffled: seq<WordId>, catalog: Catalog)
    requires Valid(p, catalog) && IsArrangement(shuffled, catalog.Keys)
    ensures Valid(SelectBatch(p, shuffled), catalog)
  {
    BatchSelection(shuffled, catalog, p.learnedWords);
  }

  // ---------------------------------------------------------------------
  // Weekly reset

  /** A second reset check in the same week, or in any earlier one, changes nothing. */
  lemma ResetOncePerWeek(p: UserProgress, week: int, later: int)
    requires later <= week
    ensures !ResetDue(WeeklyReset(p, week), later)
    ensures WeeklyReset(WeeklyReset(p, week), later) == WeeklyReset(p, week)
  {
  }

  /** The strict comparison on the week number alone: once week 52 is recorded,
      no pass in weeks 1 to 52 of the next year resets the record. */
  lemma YearBoundaryKeepsWeek(p: UserProgress, week: int)
    requires p.currentWeek == Some(52) && 1 <= week <= 52
    ensures WeeklyReset(p, week) == p
  {
  }

  lemma WeeklyResetKeepsValid(p: UserProgress, week: int, catalog: Catalog)
    requires Valid(p, catalog)
    ensures Valid(WeeklyReset(p, week), catalog)
  {
  }

  // ---------------------------------------------------------------------
  // The slots of a pass

  /** The first `n` slots add exactly the words they send and change
      nothing but the current words. */
  lemma {:induction false} RunSlotsEffect(p: UserProgress, hour: int, shuffles: seq<seq<WordId>>, n: nat)
    requires n <= |NotificationHours| == |shuffles|
    ensures RunSlots(p, hour, shuffles, n).currentWords
         == p.currentWords + Words(SentBatches(p, hour, shuffles, n))
    ensures RunSlots(p, hour, shuffles, n).learnedWords == p.learnedWords
    ensures RunSlots(p, hour, shuffles, n).goal == p.goal
    ensures RunSlots(p, hour, shuffles, n).currentWeek == p.currentWeek
  {
    if n > 0 {
      RunSlotsEffect(p, hour, shuffles, n - 1);
      var earlier := SentBatches(p, hour, shuffles, n - 1);
      if hour < NotificationHours[n - 1] {
        var b := Batch(shuffles[n - 1], RunSlots(p, hour, shuffles, n - 1).learnedWords);
        assert (earlier + [b])[..|earlier|] == earlier;
      }
    }
  }

  /** One batch per fired slot. */
  lemma {:induction false} SentBatchesCount(p: UserProgress, hour: int, shuffles: seq<seq<WordId>>, n: nat)
    requires n <= |NotificationHours| == |shuffles|
    ensures |SentBatches(p, hour, shuffles, n)| == |FiredHours(hour, n)|
  {
    if n > 0 {
      SentBatchesCount(p, hour, shuffles, n - 1);
    }
  }

  /** `b` holds min(3, unlearned) words, all unlearned catalog words. */
  ghost predicate FullBatch(b: seq<WordId>, catalog: Catalog, learned: set<WordId>)
  {
    && Elements(b) <= catalog.Keys - learned
    && |b| == Min(BatchSize, |catalog.Keys - learned|)
    && |Elements(b)| == |b|
  }

  lemma SlotBatchFull(shuffles: seq<seq<WordId>>, i: nat, catalog: Catalog, learned: set<WordId>)
    requires ShufflesFor(shuffles, catalog) && i < |shuffles|
    ensures FullBatch(Batch(shuffles[i], learned), catalog, learned)
  {
    BatchSelection(shuffles[i], catalog, learned);
  }

  /** The batch slot `n - 1` adds to those of the slots before it. */
  lemma SentBatchesStep(p: UserProgress, hour: int, shuffles: seq<seq<WordId>>, n: nat)
    requires 0 < n <= |NotificationHours| == |shuffles|
    ensures SentBatches(p, hour, shuffles, n)
         == SentBatches(p, hour, shuffles, n - 1)
            + if hour < NotificationHours[n - 1] then [Batch(shuffles[n - 1], p.learnedWords)] else []
  {
    RunSlotsEffect(p, hour, shuffles, n - 1);
  }

  /** Each batch sent holds min(3, unlearned) unlearned catalog words. */
  lemma {:induction false} SentBatchesContent(p: UserProgress, hour: int, shuffles: seq<seq<WordId>>, n: nat, catalog: Catalog)
    requires n <= |NotificationHours|
    requires ShufflesFor(shuffles, catalog)
    ensures forall b :: b in SentBatches(p, hour, shuffles, n) ==> FullBatch(b, catalog, p.learnedWords)
  {
    if n > 0 {
      SentBatchesContent(p, hour, shuffles, n - 1, catalog);
      SentBatchesStep(p, hour, shuffles, n);
      var earlier := SentBatches(p, hour, shuffles, n - 1);
      var b := Batch(shuffles[n - 1], p.learnedWords);
      SlotBatchFull(shuffles, n - 1, catalog, p.learnedWords);
      forall c | c in earlier + [b] ensures FullBatch(c, catalog, p.learnedWords) {
        if c != b {
          assert c in earlier;
        }
      }
    }
  }

  lemma {:induction false} RunSlotsKeepsValid(p: UserProgress, hour: int, shuffles: seq<seq<WordId>>, n: nat, catalog: Catalog)
    requires n <= |NotificationHours|
    requires ShufflesFor(shuffles, catalog) && Valid(p, catalog)
    ensures Valid(RunSlots(p, hour, shuffles, n), catalog)
  {
    if n > 0 {
      RunSlotsKeepsValid(p, hour, shuffles, n - 1, catalog);
      if hour < NotificationHours[n - 1] {
        SelectBatchKeepsValid(RunSlots(p, hour, shuffles, n - 1), shuffles[n - 1], catalog);
      }
    }
  }

  // ---------------------------------------------------------------------
  // A whole pass

  lemma PassKeepsLearned(p: UserProgress, hour: int, week: int, shuffles: seq<seq<WordId>>)
    requires |shuffles| == |NotificationHours|
    ensures Pass(p, hour, week, shuffles).learnedWords == p.learnedWords
  {
    RunSlotsEffect(WeeklyReset(p, week), hour, shuffles, |NotificationHours|);
  }

  /** After a pass, the current words are the batches sent, on top of the old
      current words only when no reset was due; learned words and goal stay,
      and the recorded week is the one the reset check left. */
  lemma PassEffect(p: UserProgress, hour: int, week: int, shuffles: seq<seq<WordId>>)
    requires |shuffles| == |NotificationHours|
    ensures Pass(p, hour, week, shuffles).currentWords
         == (if ResetDue(p, week) then {} else p.currentWords) + Words(PassBatches(p, hour, week, shuffles))
    ensures Pass(p, hour, week, shuffles).learnedWords == p.learnedWords
    ensures Pass(p, hour, week, shuffles).goal == p.goal
    ensures Pass(p, hour, week, shuffles).currentWeek == WeeklyReset(p, week).currentWeek
  {
    RunSlotsEffect(WeeklyReset(p, week), hour, shuffles, |NotificationHours|);
  }

  /** A pass sends one batch for each notification hour strictly after
      `hour`; those hours are visited in increasing order. */
  lemma PassSlots(p: UserProgress, hour: int, week: int, shuffles: seq<seq<WordId>>, catalog: Catalog)
    requires ShufflesFor(shuffles, catalog)
    ensures |PassBatches(p, hour, week, shuffles)| == |FiredHours(hour, |NotificationHours|)|
    ensures forall h :: h in FiredHours(hour, |NotificationHours|) <==> h in NotificationHours && hour < h
    ensures forall j, k :: 0 <= j < k < |FiredHours(hour, |NotificationHours|)| ==> FiredHours(hour, |NotificationHours|)[j] < FiredHours(hour, |NotificationHours|)[k]
    ensures forall b :: b in PassBatches(p, hour, week, shuffles) ==> FullBatch(b, catalog, p.learnedWords)
  {
    SentBatchesCount(WeeklyReset(p, week), hour, shuffles, |NotificationHours|);
    SentBatchesContent(WeeklyReset(p, week), hour, shuffles, |NotificationHours|, catalog);
    assert NotificationHours[..|NotificationHours|] == NotificationHours;
  }

  /** The hours a pass fires at, by the hour it starts at. */
  lemma FiredHoursValues(hour: int)
    ensures FiredHours(hour, |NotificationHours|)
         == if hour < 10 then [10, 15, 20]
            else if hour < 15 then [15, 20]
            else if hour < 20 then [20]
            else []
  {
    assert NotificationHours == [10, 15, 20];
    FiredHoursStep(hour, 1);
    FiredHoursStep(hour, 2);
    FiredHoursStep(hour, 3);
  }

  lemma FiredHoursStep(hour: int, n: nat)
    requires 0 < n <= |NotificationHours|
    ensures FiredHours(hour, n)
         == FiredHours(hour, n - 1) + if hour < NotificationHours[n - 1] then [NotificationHours[n - 1]] else []
  {
  }

  /** A pass before 10 o'clock fires all three slots, one at or after 20 o'clock none. */
  lemma PassSlotCounts(p: UserProgress, hour: int, week: int, shuffles: seq<seq<WordId>>)
    requires |shuffles| == |NotificationHours|
    ensures hour < 10 ==> |PassBatches(p, hour, week, shuffles)| == 3
    ensures hour < 20 ==> |PassBatches(p, hour, week, shuffles)| >= 1
    ensures 20 <= hour ==> PassBatches(p, hour, week, shuffles) == []
  {
    SentBatchesCount(WeeklyReset(p, week), hour, shuffles, |NotificationHours|);
    FiredHoursValues(hour);
  }

  lemma {:induction false} WordsContain(batches: seq<seq<WordId>>, b: seq<WordId>)
    requires b in batches
    ensures Elements(b) <= Words(batches)
  {
    var last := batches[|batches| - 1];
    if b != last {
      assert batches == batches[..|batches| - 1] + [last];
      WordsContain(batches[..|batches| - 1], b);
    }
  }

  /** A pass that fires at least one slot leaves at least min(3, unlearned)
      current words, whether or not it reset the week. */
  lemma PassLowerBound(p: UserProgress, hour: int, week: int, shuffles: seq<seq<WordId>>, catalog: Catalog)
    requires ShufflesFor(shuffles, catalog) && hour < 20
    ensures |Pass(p, hour, week, shuffles).currentWords| >= Min(BatchSize, |catalog.Keys - p.learnedWords|)
  {
    var batches := PassBatches(p, hour, week, shuffles);
    PassSlotCounts(p, hour, week, shuffles);
    PassSlots(p, hour, week, shuffles, catalog);
    PassEffect(p, hour, week, shuffles);
    assert batches != [] && batches[0] in batches;
    WordsContain(batches, batches[0]);
    SubsetCard(Elements(batches[0]), Pass(p, hour, week, shuffles).currentWords);
  }

  lemma PassKeepsValid(p: UserProgress, hour: int, week: int, shuffles: seq<seq<WordId>>, catalog: Catalog)
    requires Valid(p, catalog) && ShufflesFor(shuffles, catalog)
    ensures Valid(Pass(p, hour, week, shuffles), catalog)
  {
    RunSlotsKeepsValid(WeeklyReset(p, week), hour, shuffles, |NotificationHours|, catalog);
  }

  // ---------------------------------------------------------------------
  // Start, skip and mark learned

  /** A started record is valid, and the first pass after it always resets:
      it records the week and leaves exactly the words it sends as current. */
  lemma StartThenPass(catalog: Catalog, hour: int, week: int, shuffles: seq<seq<WordId>>)
    requires |shuffles| == |NotificationHours|
    ensures Valid(Fresh(), catalog)
    ensures ResetDue(Fresh(), week)
    ensures Pass(Fresh(), hour, week, shuffles).currentWords == Words(PassBatches(Fresh(), hour, week, shuffles))
    ensures Pass(Fresh(), hour, week, shuffles).learnedWords == {}
    ensures Pass(Fresh(), hour, week, shuffles).currentWeek == Some(week)
    ensures Pass(Fresh(), hour, week, shuffles).goal == DefaultGoal
  {
    PassEffect(Fresh(), hour, week, shuffles);
  }

  lemma SkipKeepsValid(p: UserProgress, w: WordId, catalog: Catalog)
    requires Valid(p, catalog) && w in p.currentWords
    ensures Valid(Skip(p, w), catalog)
  {
  }

  lemma MarkLearnedKeepsValid(p: UserProgress, w: WordId, catalog: Catalog)
    requires Valid(p, catalog) && w in p.currentWords
    ensures Valid(MarkLearned(p, w), catalog)
    ensures |MarkLearned(p, w).learnedWords| == |p.learnedWords| + 1
  {
  }

  /** A skip followed by a batch selection leaves at least min(3, unlearned)
      current words. */
  lemma SkipThenSelect(p: UserProgress, w: WordId, shuffled: seq<WordId>, catalog: Catalog)
    requires w in p.currentWords && IsArrangement(shuffled, catalog.Keys)
    ensures |SelectBatch(Skip(p, w), shuffled).currentWords| >= Min(BatchSize, |catalog.Keys - p.learnedWords|)
  {
    SelectBatchGrowth(Skip(p, w), shuffled, catalog);
  }
}
