/**
 The bot's global state and its command handlers: `word_database` (the
 catalog, fixed when the bot is built) and `user_progress` (user id ->
 record), which `start`, the scheduling pass, `skip` and `learned` update in
 place. Replies and notifications are returned as values instead of being
 sent: each fired slot's batch, whether the Sunday test reminder goes out,
 and which word a skip or mark-learned popped.
 */
module Bot {
  import opened Progress
  import Properties

  type UserId = int

  /** What a command replies: the user never started, there is nothing to act
      on, or an answer. */
  datatype Reply<T> = NotStarted | Nothing | Answer(value: T)

  ghost predicate StoreValid(store: map<UserId, UserProgress>, catalog: Catalog)
  {
    forall u :: u in store ==> Progress.Valid(store[u], catalog)
  }

  /** No user's record disappears and no learned word is forgotten. */
  ghost predicate LearnedKept(before: map<UserId, UserProgress>, after: map<UserId, UserProgress>)
  {
    forall u :: u in before ==> u in after && before[u].learnedWords <= after[u].learnedWords
  }

  lemma LearnedKeptByUpdate(store: map<UserId, UserProgress>, user: UserId, p: UserProgress)
    requires user in store && store[user].learnedWords <= p.learnedWords
    ensures LearnedKept(store, store[user := p])
  {
  }

  lemma UpdateTwice(store: map<UserId, UserProgress>, user: UserId, first: UserProgress, second: UserProgress)
    ensures store[user := first][user := second] == store[user := second]
  {
  }

  lemma StoreUpdate(store: map<UserId, UserProgress>, user: UserId, p: UserProgress, catalog: Catalog)
    requires StoreValid(store, catalog) && Progress.Valid(p, catalog)
    ensures StoreValid(store[user := p], catalog)
  {
  }

  class BotState {
    const catalog: Catalog
    var userProgress: map<UserId, UserProgress>

    /** Every record is valid, so each catalog lookup a handler makes succeeds. */
    ghost predicate Valid()
      reads this
    {
      StoreValid(userProgress, catalog)
    }

    constructor (catalog: Catalog)
      ensures Valid()
      ensures this.catalog == catalog && userProgress == map[]
    {
      this.catalog := catalog;
      userProgress := map[];
    }

    /** `/start`: replaces the user's record with a fresh one. */
    method Start(user: UserId)
      requires Valid()
      modifies this
      ensures Valid()
      ensures userProgress == old(userProgress)[user := Fresh()]
      ensures ProgressOf(user) == Some((0, DefaultGoal))
    {
      StoreUpdate(userProgress, user, Fresh(), catalog);
      userProgress := userProgress[user := Fresh()];
    }

    /** `send_word_to_user` (also what `/learn` runs): the weekly reset once,
        then one batch for each notification hour strictly after `hour`, then
        the test reminder on Sunday. `shuffles[i]` is the shuffle slot `i` uses. */
    method SendWordToUser(user: UserId, hour: int, week: int, weekday: int, shuffles: seq<seq<WordId>>)
      returns (batches: seq<seq<WordId>>, testReminder: bool)
      requires Valid() && ShufflesFor(shuffles, catalog)
      modifies this
      ensures Valid()
      ensures user !in old(userProgress) ==>
        userProgress == old(userProgress) && batches == [] && !testReminder
      ensures user in old(userProgress) ==>
        && userProgress == old(userProgress)[user := Pass(old(userProgress)[user], hour, week, shuffles)]
        && batches == PassBatches(old(userProgress)[user], hour, week, shuffles)
        && testReminder == (weekday == TestWeekday)
      ensures LearnedKept(old(userProgress), userProgress)
    {
      if user !in userProgress {
        return [], false;
      }
      ghost var before := userProgress[user];
      if ResetDue(userProgress[user], week) {
        var p := userProgress[user];
        Properties.WeeklyResetKeepsValid(p, week, catalog);
        StoreUpdate(userProgress, user, p.(currentWords := {}, currentWeek := Some(week)), catalog);
        userProgress := userProgress[user := p.(currentWords := {}, currentWeek := Some(week))];
      }
      batches := FireSlots(user, hour, shuffles);
      Properties.PassKeepsLearned(before, hour, week, shuffles);
      LearnedKeptByUpdate(old(userProgress), user, userProgress[user]);
      testReminder := weekday == TestWeekday;
    }

    /** The `for hour in notification_hours` loop of `send_word_to_user`: each
        hour strictly after `hour` selects a batch into the user's record. */
    method FireSlots(user: UserId, hour: int, shuffles: seq<seq<WordId>>) returns (batches: seq<seq<WordId>>)
      requires Valid() && ShufflesFor(shuffles, catalog) && user in userProgress
      modifies this
      ensures Valid()
      ensures userProgress == old(userProgress)[user := RunSlots(old(userProgress)[user], hour, shuffles, |NotificationHours|)]
      ensures batches == SentBatches(old(userProgress)[user], hour, shuffles, |NotificationHours|)
    {
      ghost var store := userProgress;
      var rec := userProgress[user];
      batches := [];
      var i := 0;
      while i < |NotificationHours|
        invariant 0 <= i <= |NotificationHours|
        invariant userProgress == store[user := rec]
        invariant rec == RunSlots(store[user], hour, shuffles, i)
        invariant batches == SentBatches(store[user], hour, shuffles, i)
      {
        if hour < NotificationHours[i] {
          var words := Batch(shuffles[i], rec.learnedWords);
          rec := rec.(currentWords := rec.currentWords + Elements(words));
          userProgress := userProgress[user := rec];
          batches := batches + [words];
        }
        i := i + 1;
      }
      Properties.RunSlotsKeepsValid(store[user], hour, shuffles, |NotificationHours|, catalog);
      StoreUpdate(store, user, rec, catalog);
    }

    /** `skip`: pops a current word without learning it, then runs a pass. */
    method SkipWord(user: UserId, hour: int, week: int, weekday: int, shuffles: seq<seq<WordId>>)
      returns (reply: Reply<WordId>, batches: seq<seq<WordId>>, testReminder: bool)
      requires Valid() && ShufflesFor(shuffles, catalog)
      modifies this
      ensures Valid()
      ensures user !in old(userProgress) ==> reply == NotStarted && userProgress == old(userProgress)
      ensures user in old(userProgress) && old(userProgress)[user].currentWords == {} ==>
        reply == Nothing && userProgress == old(userProgress)
      ensures reply.Nothing? || reply.NotStarted? ==> batches == [] && !testReminder
      ensures user in old(userProgress) && old(userProgress)[user].currentWords != {} ==>
        && reply.Answer?
        && reply.value in old(userProgress)[user].currentWords
        && var skipped := Skip(old(userProgress)[user], reply.value);
           && userProgress == old(userProgress)[user := Pass(skipped, hour, week, shuffles)]
           && batches == PassBatches(skipped, hour, week, shuffles)
           && testReminder == (weekday == TestWeekday)
      ensures LearnedKept(old(userProgress), userProgress)
    {
      if user !in userProgress {
        return NotStarted, [], false;
      }
      var p := userProgress[user];
      if p.currentWords == {} {
        return Nothing, [], false;
      }
      var w :| w in p.currentWords;
      Properties.SkipKeepsValid(p, w, catalog);
      StoreUpdate(userProgress, user, Skip(p, w), catalog);
      userProgress := userProgress[user := Skip(p, w)];
      batches, testReminder := SendWordToUser(user, hour, week, weekday, shuffles);
      UpdateTwice(old(userProgress), user, Skip(p, w), Pass(Skip(p, w), hour, week, shuffles));
      Properties.PassKeepsLearned(Skip(p, w), hour, week, shuffles);
      LearnedKeptByUpdate(old(userProgress), user, userProgress[user]);
      reply := Answer(w);
    }

    /** `learned`: pops a current word, adds it to the learned words, then
        runs a pass. */
    method WordLearned(user: UserId, hour: int, week: int, weekday: int, shuffles: seq<seq<WordId>>)
      returns (reply: Reply<WordId>, batches: seq<seq<WordId>>, testReminder: bool)
      requires Valid() && ShufflesFor(shuffles, catalog)
      modifies this
      ensures Valid()
      ensures user !in old(userProgress) ==> reply == NotStarted && userProgress == old(userProgress)
      ensures user in old(userProgress) && old(userProgress)[user].currentWords == {} ==>
        reply == Nothing && userProgress == old(userProgress)
      ensures reply.Nothing? || reply.NotStarted? ==> batches == [] && !testReminder
      ensures user in old(userProgress) && old(userProgress)[user].currentWords != {} ==>
        && reply.Answer?
        && reply.value in old(userProgress)[user].currentWords
        && var marked := MarkLearned(old(userProgress)[user], reply.value);
           && userProgress == old(userProgress)[user := Pass(marked, hour, week, shuffles)]
           && batches == PassBatches(marked, hour, week, shuffles)
           && testReminder == (weekday == TestWeekday)
      ensures LearnedKept(old(userProgress), userProgress)
      ensures reply.Answer? ==>
        |userProgress[user].learnedWords| == |old(userProgress)[user].learnedWords| + 1
    {
      if user !in userProgress {
        return NotStarted, [], false;
      }
      var p := userProgress[user];
      if p.currentWords == {} {
        return Nothing, [], false;
      }
      var w :| w in p.currentWords;
      Properties.MarkLearnedKeepsValid(p, w, catalog);
      StoreUpdate(userProgress, user, MarkLearned(p, w), catalog);
      userProgress := userProgress[user := MarkLearned(p, w)];
      batches, testReminder := SendWordToUser(user, hour, week, weekday, shuffles);
      UpdateTwice(old(userProgress), user, MarkLearned(p, w), Pass(MarkLearned(p, w), hour, week, shuffles));
      Properties.PassKeepsLearned(MarkLearned(p, w), hour, week, shuffles);
      Properties.MarkLearnedKeepsValid(p, w, catalog);
      LearnedKeptByUpdate(old(userProgress), user, userProgress[user]);
      reply := Answer(w);
    }

    /** `/progress`: the number of learned words and the goal. */
    function ProgressOf(user: UserId): (r: Option<(nat, int)>)
      reads this
      ensures r.None? <==> user !in userProgress
      ensures r.Some? ==> r.value.0 == |userProgress[user].learnedWords| && r.value.1 == userProgress[user].goal
    {
      if user in userProgress then Some((|userProgress[user].learnedWords|, userProgress[user].goal)) else None
    }

    /** `/learned`: every learned word with its translation. */
    function LearnedOf(user: UserId): (r: Reply<map<WordId, string>>)
      requires Valid()
      reads this
      ensures r.NotStarted? <==> user !in userProgress
      ensures r.Nothing? <==> user in userProgress && userProgress[user].learnedWords == {}
      ensures r.Answer? ==>
        && r.value.Keys == userProgress[user].learnedWords
        && forall w :: w in r.value ==> r.value[w] == catalog[w]
    {
      if user !in userProgress then NotStarted
      else if userProgress[user].learnedWords == {} then Nothing
      else Answer(Translations(userProgress[user].learnedWords, catalog))
    }

    /** `/test`: the translation of every current word, to be translated back. */
    function TestOf(user: UserId): (r: Reply<map<WordId, string>>)
      requires Valid()
      reads this
      ensures r.NotStarted? <==> user !in userProgress
      ensures r.Nothing? <==> user in userProgress && userProgress[user].currentWords == {}
      ensures r.Answer? ==>
        && r.value.Keys == userProgress[user].currentWords
        && forall w :: w in r.value ==> r.value[w] == catalog[w]
    {
      if user !in userProgress then NotStarted
      else if userProgress[user].currentWords == {} then Nothing
      else Answer(Translations(userProgress[user].currentWords, catalog))
    }
  }
}
