# Vocabulary bot: the learning-progress state machine

This project models the core of a Telegram bot that teaches vocabulary. The core is the
per-user progress state that `bot.py` keeps in the global dictionary `user_progress`. Each
record holds four fields:

- a goal;
- `current_words`, the words the user is drilling now;
- `learned_words`, the words the user has marked learned;
- `current_week`, the ISO week of the last reset, which is absent until the first scheduling pass.

The handlers `start`, `skip` and `learned` change that state, and so does the scheduling pass
`send_word_to_user`, which `/learn` runs. The queries `/progress`, `/learned` and `/test` only
read it.

The model has three files:

- `progress.dfy` (module `Progress`) holds the record as a datatype and each transition as a
  pure function:
  - `Fresh` is the record `start` stores.
  - `WeeklyReset` is the reset check at the start of a pass.
  - `Unlearned`, `Batch` and `SelectBatch` are one slot's batch selection: drop the learned
    words, take the first three, union them into the current words.
  - `FiredHours`, `Slot`, `RunSlots`, `SentBatches`, `Pass` and `PassBatches` are the loop over
    the notification hours 10, 15 and 20.
  - `Skip` and `MarkLearned` are the two pops.
  - `Translations` is the catalog lookup that `/test` and `/learned` print.
- `properties.dfy` (module `Properties`) proves what these transitions promise. It covers batch
  contents and size, selection being a union, the reset firing exactly when the stored week is
  absent or smaller, one batch per hour strictly after the current hour in increasing order,
  and every transition keeping the record invariant. The invariant says current and learned
  words are disjoint and both lie within the catalog.
- `bot.dfy` (module `Bot`) holds the class `BotState`. The class has `word_database` as the
  constant `catalog` and `user_progress` as a `map` field, which the handlers reassign. Each
  handler is a method whose `ensures` ties the new map to the functions above. Its
  `Valid()` says every record satisfies the invariant, so every catalog lookup a handler makes
  succeeds. The slot loop is a `while` loop in `FireSlots`.

The environment is passed in as arguments:

- the current hour, the ISO week number and the weekday are integers;
- `random.shuffle` becomes `shuffles`, one arrangement of the catalog keys per notification slot;
- the element `set.pop()` removes is chosen nondeterministically (`:|`) in the class, and
  the pure functions take it as an argument.

Notifications and replies are returned as values instead of being sent.

The week comparison is kept as written: a strict `<` on the week number alone. So a record
that has stored week 52 is not reset by any pass in weeks 1 to 52 of the following year
(`YearBoundaryKeepsWeek`).

Behaviours of `bot.py` the model keeps as written:

- `start` always stores goal 100 and does not run a pass; only `/learn`, `skip` and `learned` do.
- Every fired slot sends a message, even with an empty batch, so `batches` has one entry per
  fired slot, possibly empty.
- The Sunday reminder goes out on every pass made on a Sunday, not once per week.
- There is no cap on `current_words` across repeated passes: selection is a plain union.

## Model

| member | source | states |
|---|---|---|
| Progress.Fresh | bot.py:31-32 | the record `start` stores has goal 100, no current and no learned words, and no week, so a reset is due in every week; `StartThenPass` adds that it is valid and what the first pass leaves |
| Progress.ResetDue | bot.py:92 | the reset condition: no stored week, or a stored week strictly smaller than the current one; it has no ensures of its own, and `WeeklyReset`, `ResetOncePerWeek` and `YearBoundaryKeepsWeek` state its consequences |
| Progress.WeeklyReset | bot.py:91-94 | the record is left unchanged exactly when no reset is due (`current_week` is present and not smaller than the week); otherwise the current words are emptied and the week is recorded; goal and learned words never change; afterwards the recorded week is at least the given week |
| Progress.Unlearned | bot.py:109-111 | the filtered list holds exactly the shuffled words that are not learned |
| Progress.Batch | bot.py:113-114 | a slot's batch has at most 3 words, each from the shuffle and not learned |
| Progress.SelectBatch | bot.py:106-115 | one slot's selection keeps every old current word and adds only words of the shuffle that are not learned; learned words, goal and week are unchanged; `SelectBatchGrowth`, `BatchSelection` and `SelectBatchKeepsValid` add the size bounds and the invariant |
| Progress.FiredHours | bot.py:97-100 | the hours a pass fires at are exactly the notification hours strictly after the current hour, in strictly increasing order |
| Progress.Slot | bot.py:100-115 | a slot whose hour is not after the current hour changes nothing; a fired slot only adds unlearned words of its shuffle and keeps learned words, goal and week |
| Progress.RunSlots | bot.py:99-115 | the first `n` slots keep every current word, add only unlearned words and keep learned words, goal and week; `RunSlotsEffect` and `RunSlotsKeepsValid` say exactly what they add and that the invariant holds |
| Progress.SentBatches | bot.py:99-118 | the first `n` slots send at most `n` batches, each of at most 3 words, none of them learned; `SentBatchesCount` and `SentBatchesContent` give the exact count and contents |
| Progress.Pass | bot.py:89-118 | a pass keeps learned words and goal, records a week at least the current one, keeps the old current words when no reset was due, and keeps current and learned words disjoint; `PassEffect`, `PassSlots` and `PassKeepsValid` give the full effect |
| Progress.PassBatches | bot.py:89-118 | a pass sends at most 3 batches of at most 3 unlearned words each; `PassSlots` and `PassSlotCounts` give their number and contents |
| Progress.Skip | bot.py:129-131 | popping `w` for a skip removes exactly `w` from the current words, so there is one fewer current word; learned words, goal and week are unchanged |
| Progress.MarkLearned | bot.py:144-147 | popping `w` as learned removes exactly `w` from the current words and adds that same `w` to the learned words; with `w` not yet learned, learned grows by exactly one |
| Progress.Translations | bot.py:73-74 | the listing pairs exactly the given words with their catalog translations |
| Progress.HoursIncrease | bot.py:97 | the notification hours are listed in increasing order |
| Properties.BatchSelection | bot.py:106-114 | with the shuffle an arrangement of the catalog keys, a batch holds exactly min(3, number of unlearned catalog words) distinct words, all catalog words not in `learned_words` |
| Properties.SelectBatchGrowth | bot.py:115 | selection is a union: every old current word stays; at most 3 words join, all unlearned catalog words; at least min(3, unlearned) words are current afterwards; learned words, goal and week are unchanged |
| Properties.SelectBatchKeepsValid | bot.py:110-115 | batch selection keeps current and learned disjoint and within the catalog |
| Properties.ResetOncePerWeek | bot.py:92-94 | after the reset check for a week, a second check in the same or an earlier week is not due and changes nothing (idempotence) |
| Properties.YearBoundaryKeepsWeek | bot.py:92 | with week 52 recorded, passes in weeks 1 to 52 never reset, because the comparison is on the week number alone |
| Properties.WeeklyResetKeepsValid | bot.py:92-94 | the weekly reset keeps the record invariant |
| Properties.RunSlotsEffect | bot.py:99-115 | the slots of a pass add exactly the words of the batches they send and change neither learned words, goal nor week |
| Properties.SentBatchesCount | bot.py:99-100 | the slots send one batch per fired hour |
| Properties.SentBatchesContent | bot.py:106-115 | every batch a pass sends holds exactly min(3, unlearned) distinct unlearned catalog words |
| Properties.RunSlotsKeepsValid | bot.py:99-115 | the slot loop keeps the record invariant |
| Properties.PassKeepsLearned | bot.py:82-115 | a scheduling pass never changes the learned words |
| Properties.PassEffect | bot.py:89-115 | after a pass, the current words are the words sent, on top of the old current words only when no reset was due; learned words and goal are unchanged; the week is the one the reset check left, since the reset runs once, before any slot |
| Properties.PassSlots | bot.py:97-115 | a pass sends one batch for each notification hour strictly after the current hour; those hours are visited in increasing order; each batch holds min(3, unlearned) unlearned catalog words |
| Properties.FiredHoursValues | bot.py:97-100 | the fired hours are 10, 15, 20 before ten o'clock; 15, 20 before three; 20 before eight; none after |
| Properties.PassSlotCounts | bot.py:99-100 | a pass before 10 sends three batches, one before 20 at least one, one at or after 20 none |
| Properties.PassLowerBound | bot.py:99-115 | a pass that fires a slot leaves at least min(3, unlearned catalog words) current words |
| Properties.PassKeepsValid | bot.py:89-115 | a whole pass keeps the record invariant |
| Properties.StartThenPass | bot.py:31-32 | the record `start` stores is valid, and the next pass always resets it: it records the week, leaves exactly the words it sends as current, learned stays empty and the goal stays 100 |
| Properties.SkipKeepsValid | bot.py:129-131 | a skip keeps the record invariant |
| Properties.MarkLearnedKeepsValid | bot.py:144-147 | mark-learned keeps the record invariant, and on a valid record it grows the learned words by exactly one |
| Properties.SkipThenSelect | bot.py:131-132 | a skip followed by a batch selection leaves at least min(3, unlearned) current words |
| Bot.BotState.constructor | bot.py:20-25 | the bot starts with the given catalog and no user records |
| Bot.BotState.Start | bot.py:28-32 | the user's record is replaced by the fresh one; other users are untouched; progress then reads 0 of 100 |
| Bot.BotState.SendWordToUser | bot.py:82-122 | for an unknown user nothing changes and nothing is sent; otherwise the record becomes `Pass` of the old one, the batches sent are `PassBatches`, and the test reminder goes out exactly when the weekday is 6; the invariant holds and no learned word is lost |
| Bot.BotState.FireSlots | bot.py:99-115 | the loop over notification hours leaves the record `RunSlots` of the old one and returns the batches `SentBatches`; with the shuffles arrangements of the catalog keys, the invariant holds afterwards |
| Bot.BotState.SkipWord | bot.py:125-137 | unknown user or empty current words: nothing changes; otherwise a current word `w` is popped, not learned, and a pass runs on the record after the pop; the invariant holds and no learned word is lost |
| Bot.BotState.WordLearned | bot.py:140-153 | unknown user or empty current words: nothing changes; otherwise a current word `w` moves to the learned words and a pass runs; the learned count grows by exactly one |
| Bot.BotState.ProgressOf | bot.py:56-64 | absent for an unknown user; otherwise the number of learned words and the goal |
| Bot.BotState.LearnedOf | bot.py:67-79 | not started, nothing learned, or every learned word with its catalog translation |
| Bot.BotState.TestOf | bot.py:41-53 | not started, nothing to test, or every current word with its catalog translation |

## Left out

- The aiogram bot, dispatcher, middleware, message handlers' transport (`message.answer`, `bot.send_message`) and the Russian reply texts: replies and notifications are returned as values instead.
- Token loading (`load_dotenv`, `os.getenv`) and `executor.start_polling`: process bootstrap, not state logic.
- `asyncio.sleep` and `datetime.now()`, `isocalendar()` and `weekday()`: wall-clock time; the hour, ISO week and weekday are integer arguments, read once per pass as the source does.
- `random.shuffle`: randomness is not modelled; each slot takes a supplied arrangement of the catalog keys.
- Which element `set.pop()` returns: any current word may be chosen, and the contracts hold for every choice.
- Overlapping scheduling loops: `skip` and `learned` re-enter `send_word_to_user`, and in the bot several passes for one user can sleep and interleave. The model runs each pass to completion before the handler returns.
- Aliasing of the mutable set objects: records are values in the map, so the stale local `current_words` that `skip` and `learned` hold across a reset inside the pass is not represented. Nothing reads it after the pop.
- The literal contents of `word_database`, which is empty in the source: the catalog is a constructor argument.
- The `/learn` handler (bot.py:36-38) has no member of its own: it only calls `send_word_to_user`, which is `Bot.BotState.SendWordToUser`.
