# GoodCents bookkeeping and progression, modelled in Dafny

GoodCents is a personal-finance game. The player has three accounts:
everyday spending, savings and retirement savings. They also have a job whose
promotion progress sets their weekly income. Every week the player does a job
quiz, meets an interactive event (buy something, move money, or dismiss it),
and works through finance lessons. Then they advance the calendar.

This project models the engine under those screens:
- the accounts and their append-only ledger
- transfers between accounts, purchases and sales of items
- the end of the week: calendar roll-over, month-start interest, expense
  drift, income and expenses, and the weekly flags
- event weights and the weighted roulette that picks an interactive event
- the three-band weekly event draw
- job levels and quiz awards
- lesson unlocking and completion records
- the expense breakdown and the account history

Modelling choices, in the system's own terms:

- **Money is `real`.** Every balance and amount is a Dafny `real` with exact
  arithmetic. The properties proved hold in exact arithmetic.
- **Records are a class.** The player, job and calendar records are classes
  (`Models.Player`, `Models.Job`, `Models.Time`) whose fields are updated in
  place.
- **The database is a class.** The app's database is `Models.Store`. It
  holds every stored record:
  - transactions, owned items and lesson completion records are `seq` fields
    that the operations reassign;
  - a counter `now` stands for `Date.now` and advances with each saved
    transaction, so ledger dates strictly increase (`Store.Valid`).
- **Settings are a class.** The app settings that persist across launches
  (the four weekly flags, the onboarding flags and the welcome page) are the
  class `Models.Flags`.
- **Randomness is a parameter.** Each random source is passed in:
  - `Double.random` is a draw in the same range as the source's (`[0, 1]` or
    `[0, 1)`);
  - `randomElement()` is an index `pick` reduced modulo the list length;
  - `shuffled()` is a Fisher–Yates sequence of swap draws.
- **Formatting is a parameter.** The currency formatter and
  `String(format: "%.2f")` are also parameters. The caller supplies the
  formatted text, or `None` where the formatter can fail, and the model
  falls back to the plain text as the source does.
- **`inout` becomes input plus output.** Swift `inout` parameters (messages,
  flags, the month-start change values) are passed in and returned.
- **One module per source file.** Each core Swift file is one Dafny module:
  - `Models` (SwiftDataModels.swift, with `calculatePlayersWealthClass` and
    `generateWeeklyExpenses`, which `Player` uses)
  - `InteractiveEvents`
  - `TransferMoney`
  - `Home`
  - `JobQuiz`
  - `Questions`
  - `LessonMain`
  - `LessonDetail`
  - `Helpers` (Functions.swift)
  - `WeeklyEvents`
  - `ProgressTime`
  - `EventActions` (InteractiveEventActionView.swift)
  - `AccountDetail`

  The lesson content records are datatypes in `Lessons`. `Wrappers`
  holds `Option` and the first-match search behind `first(where:)` and `firstIndex(where:)`.

Where the code and the written description of the app differ, the model
follows the code:

- **Weekly event ledger snapshot.** The balance recorded after a weekly event
  is `players.first?.spendingAccount ?? 0 - amount`. This parses as
  `x ?? (0 - amount)`, so with a player present the snapshot is the spending
  balance after the event, and the amount is not subtracted twice. Only with
  no player is it minus the amount
  (`ProgressTime.TriggerWeeklyEvent`).
- **`withdrawnThisMonth` is cleared every week.** `forwardTime` clears it at
  the end of every week, not only at a month start. So only a savings
  withdrawal in the week that closes a month lowers that month's interest
  (`Home.ForwardTime`).

## Model

| member | source | states |
|---|---|---|
| Wrappers.FirstIndexWhere | GoodCents.swiftpm/Views/InteractiveEvents/InteractiveEventActionView.swift:97 | The search behind `first(where:)` and `firstIndex(where:)`: a found position holds a matching element and no earlier one matches; nothing is found exactly when no element matches. The owned-item, lesson, completion-record and answer-offset searches all use it. |
| Models.Label | GoodCents.swiftpm/Views/Money/TransferMoney.swift:139-218 | The ledger label is "Everyday Spending" exactly for spending, "Savings" exactly for savings and "Retirement Savings" exactly for retirement, so the labels tell the accounts apart. |
| Models.UnderfundedThreshold | GoodCents.swiftpm/Models/SwiftDataModels.swift:68-74 | The underfunded thresholds are 200 for spending, 1000 for savings and 500 for retirement. |
| Models.Balances.With | GoodCents.swiftpm/Models/SwiftDataModels.swift:34-43 | Setting one account's balance changes that balance only. The total moves by exactly the difference. |
| Models.WealthClassOf | GoodCents.swiftpm/Models/InteractiveEvents.swift:60-69 | Lower exactly on [0, 1000). Middle exactly on [1000, 10000). Upper everywhere else, including negative balances. |
| Models.LevelCountsBreakpoints | GoodCents.swiftpm/Models/SwiftDataModels.swift:81-98 | The promotion level is the number of breakpoints 25/75/150/250/350 that the progress has reached. So it lies in 0..5, and negative progress is level 0. |
| Models.LevelMonotone | GoodCents.swiftpm/Models/SwiftDataModels.swift:81-98 | More progress never gives a lower level. |
| Models.Income | GoodCents.swiftpm/Models/SwiftDataModels.swift:137-152 | Every level's weekly income is at least 950.24. |
| Models.IncomeStrictlyIncreasing | GoodCents.swiftpm/Models/SwiftDataModels.swift:137-152 | Income strictly increases with level over 0..5. |
| Models.ProgressWithinGoal | GoodCents.swiftpm/Models/SwiftDataModels.swift:81-134 | For progress in [0, 350], progress never exceeds the current level's goal. Reaching the goal of levels 0-3 gives the next level. Level 4's goal, 349, is still level 4. |
| Models.Job.constructor | GoodCents.swiftpm/Models/SwiftDataModels.swift:154-158 | Initial progress is clamped to at most 350 and kept as given otherwise, negative values included. |
| Models.GenerateWeeklyExpenses | GoodCents.swiftpm/Helpers/Functions.swift:44-48 | For a draw in [0, 1], the expenses lie in [max(0, income − 80), income + 40], so they are never negative. |
| Models.WeeklyExpensesCoverRange | GoodCents.swiftpm/Helpers/Functions.swift:44-48 | Every value in that interval is produced by some draw, so the model loses no outcome of the uniform draw. |
| Models.Player.TotalMoney | GoodCents.swiftpm/Models/SwiftDataModels.swift:26-43 | Total money is the sum of the balances of the three accounts. |
| Models.Player.WeeklyIncome | GoodCents.swiftpm/Models/SwiftDataModels.swift:30-32 | Income is 0 exactly when there is no job. Otherwise it is the income of the job's level. |
| Models.Player.constructor | GoodCents.swiftpm/Models/SwiftDataModels.swift:46-60 | The player gets the given name, job and balances (source defaults 200/500/250), and first expenses drawn from their income. |
| Models.Time.constructor | GoodCents.swiftpm/Models/SwiftDataModels.swift:210-214 | The calendar record holds the given week, month and year. |
| Models.Store.constructor | GoodCents.swiftpm/Models/SwiftDataModels.swift:161-270 | A new store holds no records of any kind and satisfies the ledger invariant. |
| Models.Store.SaveTransaction | GoodCents.swiftpm/Models/SwiftDataModels.swift:171-186 | Appends exactly one entry with the given account, name, value and snapshot, stamped with the current time. Nothing else changes, and dates stay strictly increasing. |
| Models.Flags.constructor | GoodCents.swiftpm/Helpers/Functions.swift:88-95 | Every session flag starts false and the welcome page is 0. These are the source's defaults. |
| InteractiveEvents.Weight | GoodCents.swiftpm/Models/InteractiveEvents.swift:73-131 | An event's weight is never negative. |
| InteractiveEvents.ActionDeltaCases | GoodCents.swiftpm/Models/InteractiveEvents.swift:76-111 | A transfer action scores +2 or −1 (source covers the minimum) plus +1.5 or −5 (destination underfunded and poorer than the source). A transfer without details scores 0. A purchase scores +1 exactly when a price exists and spending covers it, else −5, so the −1 arm is dead. A dismiss scores +0.5. |
| InteractiveEvents.ActionsDeltaBounds | GoodCents.swiftpm/Models/InteractiveEvents.swift:76-112 | The actions together add between −6 and +3.5 per action. |
| InteractiveEvents.WeightUpperBound | GoodCents.swiftpm/Models/InteractiveEvents.swift:74-130 | The weight is at most twice (1 + 3.5 × number of actions), since the doubling applies at most once. |
| InteractiveEvents.DismissOnlyWeight | GoodCents.swiftpm/Models/InteractiveEvents.swift:108-130 | An event offering only dismiss actions weighs exactly 1 + 0.5 per action, never doubled. |
| InteractiveEvents.DismissOnlyDelta | GoodCents.swiftpm/Models/InteractiveEvents.swift:108-125 | Dismiss actions add 0.5 each and never trigger the low-spending doubling. |
| InteractiveEvents.CalculateRandomChanceWeight | GoodCents.swiftpm/Models/InteractiveEvents.swift:73-131 | The loop over actions, the doubling and the floor at 0 compute exactly `Weight` of the player's balances. |
| InteractiveEvents.ReturnRandomInteractiveEvent | GoodCents.swiftpm/Models/InteractiveEvents.swift:135-170 | The selection returns `Choose` over the candidates: the player's wealth-class groups, scored and filtered to positive weight, spun with the draw scaled to the total weight. |
| InteractiveEvents.ScoreGroups | GoodCents.swiftpm/Models/InteractiveEvents.swift:143-149 | The nested loops produce every event of every matched group, in order, each paired with its weight. |
| InteractiveEvents.SpinRoulette | GoodCents.swiftpm/Models/InteractiveEvents.swift:157-169 | The cumulative-weight loop returns the first event whose running total exceeds the draw, falling back to the first event. |
| InteractiveEvents.PickFrom | GoodCents.swiftpm/Models/InteractiveEvents.swift:162-167 | A found index lies between the start index and the end of the list. |
| InteractiveEvents.PrefixWeightMonotone | GoodCents.swiftpm/Models/InteractiveEvents.swift:157-164 | With non-negative weights, a longer prefix never has a smaller running total. |
| InteractiveEvents.PickFromSpec | GoodCents.swiftpm/Models/InteractiveEvents.swift:162-167 | The pick is the first index whose running total exceeds the draw. With no pick, no running total exceeds it. |
| InteractiveEvents.RouletteInterval | GoodCents.swiftpm/Models/InteractiveEvents.swift:157-167 | For a draw in [0, total), event k is picked exactly when the draw falls in [its prefix sum, prefix sum + its weight). The pick always exists. |
| InteractiveEvents.PickedInterval | GoodCents.swiftpm/Models/InteractiveEvents.swift:157-167 | The picked event's interval contains the draw. |
| InteractiveEvents.IntervalUnique | GoodCents.swiftpm/Models/InteractiveEvents.swift:157-167 | With non-negative weights the intervals do not overlap, so at most one event owns a draw. |
| InteractiveEvents.PositiveWeights | GoodCents.swiftpm/Models/InteractiveEvents.swift:152 | Every entry kept by the filter has positive weight. |
| InteractiveEvents.InPositive | GoodCents.swiftpm/Models/InteractiveEvents.swift:152 | The filter keeps exactly the entries of positive weight. |
| InteractiveEvents.InScored | GoodCents.swiftpm/Models/InteractiveEvents.swift:145-148 | A scored entry is exactly an event of the list paired with its own weight. |
| InteractiveEvents.InEligible | GoodCents.swiftpm/Models/InteractiveEvents.swift:143-149 | An eligible entry is exactly a scored event of one of the groups. |
| InteractiveEvents.InMatched | GoodCents.swiftpm/Models/InteractiveEvents.swift:140 | A group is matched exactly when it lists the player's wealth class. |
| InteractiveEvents.CandidatesExactly | GoodCents.swiftpm/Models/InteractiveEvents.swift:140-152 | A candidate is exactly an event of a group listing the player's class, carrying its own weight, with that weight positive. |
| InteractiveEvents.CandidatesPositive | GoodCents.swiftpm/Models/InteractiveEvents.swift:152 | Every candidate has positive weight. |
| InteractiveEvents.ChooseSpec | GoodCents.swiftpm/Models/InteractiveEvents.swift:153-169 | No candidates gives the "No events found" sentinel. Otherwise the roulette always picks (the fallback is unreachable) and the chosen event has positive weight. |
| InteractiveEvents.DrawBelowTotal | GoodCents.swiftpm/Models/InteractiveEvents.swift:158 | A uniform draw in [0, 1) scaled by a positive total lies in [0, total). |
| InteractiveEvents.PositiveTotal | GoodCents.swiftpm/Models/InteractiveEvents.swift:157 | A non-empty list of positive weights has a positive total. |
| InteractiveEvents.SingleCandidate | GoodCents.swiftpm/Models/InteractiveEvents.swift:162-167 | With a single candidate, every draw below its weight picks it. |
| TransferMoney.TransferRefusals | GoodCents.swiftpm/Views/Money/TransferMoney.swift:118-171 | A transfer is refused exactly when the amount is not positive, the accounts are equal, or the source balance is below the amount. The amount check comes first, then the same-account check, then the per-account funds check. |
| TransferMoney.TransferMovesAmount | GoodCents.swiftpm/Views/Money/TransferMoney.swift:136-219 | A successful transfer lowers the source by the amount and raises the destination by it. The third account is untouched, total money is preserved and the source is not overdrawn. |
| TransferMoney.TransferBackRestores | GoodCents.swiftpm/Views/Money/TransferMoney.swift:129-219 | If the destination was not in debt, transferring the same amount back restores the balances. |
| TransferMoney.TransferFunds | GoodCents.swiftpm/Views/Money/TransferMoney.swift:109-230 | On refusal: the matching error text, with balances, ledger, success message and withdrawal flag unchanged. On success: the balances are those of `Transfer`, a debit under the source's label and then a credit under the destination's label are appended (each carrying that account's new balance), the success text is set, the error is cleared, and the withdrawal flag is raised only for a savings source. |
| TransferMoney.DebitSource | GoodCents.swiftpm/Views/Money/TransferMoney.swift:129-182 | Refuses, changing nothing, exactly when the source balance is below the amount. Otherwise it debits the source and files one "Transfer to" entry. |
| TransferMoney.CreditDestination | GoodCents.swiftpm/Views/Money/TransferMoney.swift:185-219 | Credits the destination by the amount and files one "Transfer from" entry carrying the new balance. |
| Home.AllowedToProgressTime | GoodCents.swiftpm/Views/Home.swift:35-41 | The week may end exactly when the quiz and the event are done, and also the week's lesson while fewer than 12 lessons are complete. |
| Home.AdvanceStep | GoodCents.swiftpm/Views/Home.swift:205-217 | One step keeps week in 1..4 and month in 1..12 and moves exactly one week on. A month starts exactly after week 4, and a year exactly after week 4 of month 12. |
| Home.AdvanceByWeeks | GoodCents.swiftpm/Views/Home.swift:205-217 | n steps keep the date valid and move exactly n weeks on. |
| Home.FourWeeksMakeAMonth | GoodCents.swiftpm/Views/Home.swift:205-217 | Four steps give the same week of the next month, wrapping into the next year after December. |
| Home.AdvanceCalendar | GoodCents.swiftpm/Views/Home.swift:205-217 | The calendar record moves to the following week. |
| Home.AccrueOrder | GoodCents.swiftpm/Views/Home.swift:230-236 | Interest never shrinks a non-negative balance. A higher rate never pays less, and pays strictly more on a positive balance. |
| Home.PremiumPaysMore | GoodCents.swiftpm/Views/Home.swift:230-234 | On positive savings, a month without withdrawals earns strictly more than one with a withdrawal. |
| Home.ApplyMonthStart | GoodCents.swiftpm/Views/Home.swift:222-264 | Savings accrue at 0.0004166667 after a withdrawal and at 0.00375 otherwise. Retirement accrues at 0.0064583333. Expenses are redrawn only when `increase` holds. The three changes are returned, and the "Interest" or "Premium Interest" savings entry and the retirement entry are appended. |
| Home.PayEntriesBalance | GoodCents.swiftpm/Views/Home.swift:271-293 | The income and expense entries sum to the change in spending, in date order. |
| Home.PayWeek | GoodCents.swiftpm/Views/Home.swift:271-293 | Spending gains the income and loses the expenses with no funds check. One "Weekly Income" and one "Weekly Expenses" entry are filed, each carrying the balance after its step. |
| Home.ForwardTime | GoodCents.swiftpm/Views/Home.swift:197-299 | The calendar steps. The month-start block runs exactly when the new week is 1, with expenses redrawn only for a draw below 0.8. The week's pay is settled when a player exists. The ledger grows by exactly those entries, and all four weekly flags end false. |
| Home.ResetWeeklyFlags | GoodCents.swiftpm/Views/Home.swift:295-298 | The quiz, event, lesson and withdrawal flags all end false. |
| JobQuiz.Ceil | GoodCents.swiftpm/Views/Job/JobQuiz.swift:197-204 | The result is the least integer not below its argument. |
| JobQuiz.LevelBonusValues | GoodCents.swiftpm/Views/Job/JobQuiz.swift:197-204 | ceil(level × 0.2) is 0 at level 0 and 1 at levels 1-5. |
| JobQuiz.AwardedProgressBounds | GoodCents.swiftpm/Views/Job/JobQuiz.swift:195-209 | For any progress at or below 350, negative included, an award never lowers progress and never takes it past 350. Scores outside 1..3 award nothing, and a better score never awards less. |
| JobQuiz.PerfectQuizFromNewbie | GoodCents.swiftpm/Views/Job/JobQuiz.swift:195-209 | A perfect quiz from progress 10-24 promotes a Newbie to level 1. |
| JobQuiz.AwardPromotionPoints | GoodCents.swiftpm/Views/Job/JobQuiz.swift:195-213 | The job's progress becomes the awarded progress for the score. |
| JobQuiz.EndOfQuizTextDistinguishesScores | GoodCents.swiftpm/Views/Job/JobQuiz.swift:215-225 | Scores 0, 1, 2 and 3 each get a different closing message. |
| JobQuiz.QuizSession.constructor | GoodCents.swiftpm/Views/Job/JobQuiz.swift:40-42 | The quiz opens on the shuffled bank with no selections, index 0 and score 0. |
| JobQuiz.QuizSession.SelectAnswer | GoodCents.swiftpm/Views/Job/JobQuiz.swift:58-74 | A tap records the selection for the question on screen, unless the answer was already submitted. |
| JobQuiz.QuizSession.PressNext | GoodCents.swiftpm/Views/Job/JobQuiz.swift:97-114 | With no selection, nothing happens. Submit reveals the answer. Next scores one point exactly for a correct selection and moves on. The score never exceeds the questions answered, nor these the (at most 3) questions asked. |
| JobQuiz.QuizSession.Close | GoodCents.swiftpm/Views/Job/JobQuiz.swift:150-153 | Closing awards the score's points and marks the week's quiz done. |
| Questions.Swap | GoodCents.swiftpm/Models/Questions.swift:22 | A swap exchanges exactly the two positions. |
| Questions.SwapPermutes | GoodCents.swiftpm/Models/Questions.swift:22 | A swap keeps the multiset of elements. |
| Questions.ShufflePermutes | GoodCents.swiftpm/Models/Questions.swift:22 | The shuffle keeps length and multiset: it is a permutation. |
| Questions.Enumerate | GoodCents.swiftpm/Models/Questions.swift:22 | Each answer is tagged with its original offset. |
| Questions.Elements | GoodCents.swiftpm/Models/Questions.swift:23 | The answers in their shuffled order, with the tags dropped. |
| Questions.ElementsCommute | GoodCents.swiftpm/Models/Questions.swift:22-23 | Shuffling the tagged answers and dropping the tags equals shuffling the answers themselves. |
| Questions.MakeQuestion | GoodCents.swiftpm/Models/Questions.swift:18-25 | The text and original answers are kept. The answers are a permutation of the originals, and the new correct index points at the originally correct answer. |
| Questions.CorrectAnswerFollows | GoodCents.swiftpm/Models/Questions.swift:22-24 | After the shuffle the original correct offset is found, so the force-unwrap never fails for an index in range. |
| Questions.BankWellFormed | GoodCents.swiftpm/Models/Questions.swift:29-55 | The bank has 25 questions, each with a correct index in 0..3. |
| Questions.BankQuestionBuilds | GoodCents.swiftpm/Models/Questions.swift:18-55 | Every bank question built from four answers meets the in-range requirement of `MakeQuestion`, so the force-unwrap never traps, and the built question marks the answer the bank names as correct. |
| LessonMain.AllLessons | GoodCents.swiftpm/Views/Lessons/LessonMainView.swift:24-26 | A single section flattens to its own lessons. |
| LessonMain.AllLessonsAppend | GoodCents.swiftpm/Views/Lessons/LessonMainView.swift:24-26 | Flattening is sections in order, then lessons in order within each section. |
| LessonMain.InAllLessons | GoodCents.swiftpm/Views/Lessons/LessonMainView.swift:24-26 | A lesson is in the flattened list exactly when some section holds it. |
| LessonMain.FirstRecord | GoodCents.swiftpm/Views/Lessons/LessonMainView.swift:32 | Finds a completion record for the lesson id exactly when one exists. |
| LessonMain.PriorRecordedMeans | GoodCents.swiftpm/Views/Lessons/LessonMainView.swift:53-57 | The search loop passes exactly when every lesson before the index has a record. |
| LessonMain.RecordDecides | GoodCents.swiftpm/Views/Lessons/LessonMainView.swift:32-39 | A lesson with a record is open exactly when that record is not all-correct. |
| LessonMain.UnrecordedEnabled | GoodCents.swiftpm/Views/Lessons/LessonMainView.swift:42-60 | An unrecorded lesson is open exactly when it is listed and every lesson before its first occurrence has a record, whatever that record's score. |
| LessonMain.FirstLessonOpen | GoodCents.swiftpm/Views/Lessons/LessonMainView.swift:48-50 | The first listed lesson is open when it has no record. |
| LessonMain.OnlyNextLessonOpen | GoodCents.swiftpm/Views/Lessons/LessonMainView.swift:42-60 | With distinct ids, an unrecorded lesson is open exactly when every earlier lesson has a record. |
| LessonMain.UnlistedLessonLocked | GoodCents.swiftpm/Views/Lessons/LessonMainView.swift:32-45 | An unlisted lesson is open only through an imperfect record. |
| LessonMain.IconMatchesUnlocking | GoodCents.swiftpm/Views/Lessons/LessonMainView.swift:109-149 | When titles identify lessons: checkmark exactly on recorded locked lessons, exclamation on recorded open ones, padlock on unrecorded locked ones, no icon on unrecorded open ones. The chevron appears exactly on open lessons. |
| LessonDetail.QuestionsCorrect | GoodCents.swiftpm/Views/Lessons/LessonDetailView.swift:225-228 | The count lies in 0..number of questions. |
| LessonDetail.QuestionsCorrectExtremes | GoodCents.swiftpm/Views/Lessons/LessonDetailView.swift:225-228 | A full count means every question was answered correctly. A zero count means none was, unanswered questions counting as wrong. |
| LessonDetail.TierThresholds | GoodCents.swiftpm/Views/Lessons/LessonDetailView.swift:319-329 | Pass exactly when all are correct. Half-pass exactly when not all are correct but at least two thirds are. Fail otherwise, and always for a lesson with no questions. |
| LessonDetail.FirstRecordIndexSameIds | GoodCents.swiftpm/Views/Lessons/LessonDetailView.swift:334 | A search stays put when the records keep their ids in place. |
| LessonDetail.UpsertEffect | GoodCents.swiftpm/Views/Lessons/LessonDetailView.swift:333-346 | With no record, exactly one is appended, all-correct iff the attempt was perfect. Otherwise only the found record changes, gaining the all-correct mark on a perfect attempt. |
| LessonDetail.UpsertKeepsUnique | GoodCents.swiftpm/Views/Lessons/LessonDetailView.swift:333-346 | Saving keeps at most one record per lesson id. |
| LessonDetail.UpsertIdempotent | GoodCents.swiftpm/Views/Lessons/LessonDetailView.swift:231-346 | Saving twice equals saving once, so the Next and Close saves add nothing more. |
| LessonDetail.UpsertNeverDowngrades | GoodCents.swiftpm/Views/Lessons/LessonDetailView.swift:334-339 | No record loses its id or its all-correct mark. |
| LessonDetail.QuestionIds | GoodCents.swiftpm/Views/Lessons/LessonDetailView.swift:240 | The set of the lesson's question ids. |
| LessonDetail.QuestionIdsCount | GoodCents.swiftpm/Views/Lessons/LessonDetailView.swift:240 | With distinct ids, there are as many ids as questions. |
| LessonDetail.LessonSession.constructor | GoodCents.swiftpm/Views/Lessons/LessonDetailView.swift:125-151 | A session opens on page 0 with no selections and nothing shown. |
| LessonDetail.LessonSession.PageBack | GoodCents.swiftpm/Views/Lessons/LessonDetailView.swift:125-131 | Back moves one page back, or on page 0 opens the leave dialog. The page index stays in range. |
| LessonDetail.LessonSession.PageForward | GoodCents.swiftpm/Views/Lessons/LessonDetailView.swift:146-151 | Forward moves one page on, or on the last page shows the questions. The page index stays in range. |
| LessonDetail.LessonSession.SelectAnswer | GoodCents.swiftpm/Views/Lessons/LessonDetailView.swift:180-183 | A tap records the selection, unless the answers are already submitted. |
| LessonDetail.LessonSession.SubmitEnabledMeansAllAnswered | GoodCents.swiftpm/Views/Lessons/LessonDetailView.swift:240 | The button is enabled exactly when every question has a selection. |
| LessonDetail.LessonSession.SaveCompletedLesson | GoodCents.swiftpm/Views/Lessons/LessonDetailView.swift:333-353 | The completion records become the upsert of this attempt, keeping one record per lesson. |
| LessonDetail.LessonSession.Submit | GoodCents.swiftpm/Views/Lessons/LessonDetailView.swift:223-240 | Submit scores the answers and freezes them. Next saves the attempt and shows the result screen. |
| LessonDetail.LessonSession.Close | GoodCents.swiftpm/Views/Lessons/LessonDetailView.swift:301-304 | Close saves the attempt again and marks the week's lesson done. |
| Helpers.TotalQuantityAppend | GoodCents.swiftpm/Helpers/Functions.swift:24-29 | The units held add up across concatenation. |
| Helpers.SaleTakesOneUnit | GoodCents.swiftpm/Helpers/Functions.swift:24-29 | A sale of a held item removes exactly one unit from the inventory. |
| Helpers.SaleKeepsOtherItems | GoodCents.swiftpm/Helpers/Functions.swift:24-29 | Every other entry survives a sale, and an inventory without empty entries stays so, since an item reaching 0 is deleted. |
| Helpers.SellItem | GoodCents.swiftpm/Helpers/Functions.swift:11-41 | Nothing changes for an unsellable or empty item. Otherwise spending rises by the item's value, one unit leaves (the entry is deleted at 0), and one "Sold" entry with the value and the new balance is filed. |
| Helpers.ClearAllData | GoodCents.swiftpm/Helpers/Functions.swift:50-98 | Every record of all six kinds is gone. All seven boolean flags are false and the welcome page is 0. |
| Helpers.ResetFlags | GoodCents.swiftpm/Helpers/Functions.swift:87-95 | All seven boolean flags are false and the welcome page is 0. |
| Helpers.DeleteAllRecords | GoodCents.swiftpm/Helpers/Functions.swift:67-85 | The deletion loops empty all six record kinds. |
| WeeklyEvents.PositiveTable | GoodCents.swiftpm/Models/WeeklyEvent.swift:34-49 | 14 positive events, none owed, amounts 5-1500. |
| WeeklyEvents.NegativeTable | GoodCents.swiftpm/Models/WeeklyEvent.swift:51-66 | 14 negative events, all owed, amounts 40-250. |
| WeeklyEvents.SuperNegativeTable | GoodCents.swiftpm/Models/WeeklyEvent.swift:68-74 | 5 super-negative events, all owed, amounts 400-800. |
| WeeklyEvents.SuperNegativeCostsMore | GoodCents.swiftpm/Models/WeeklyEvent.swift:51-74 | Every super-negative amount exceeds every ordinary negative amount. |
| WeeklyEvents.Band | GoodCents.swiftpm/Models/WeeklyEvent.swift:78-84 | The list the draw selects is never empty. |
| WeeklyEvents.RandomElement | GoodCents.swiftpm/Models/WeeklyEvent.swift:79-83 | Nothing is picked exactly from an empty list. Otherwise the pick is an element of the list. |
| WeeklyEvents.RandomElementReaches | GoodCents.swiftpm/Models/WeeklyEvent.swift:79-83 | Every element can be picked. |
| WeeklyEvents.GetRandomWeeklyEvent | GoodCents.swiftpm/Models/WeeklyEvent.swift:33-85 | A draw in [0, 1] always yields an event. |
| WeeklyEvents.DrawFromTable | GoodCents.swiftpm/Models/WeeklyEvent.swift:79-83 | A pick from a table carries the table's owed flag and amount range. |
| WeeklyEvents.WeeklyEventBands | GoodCents.swiftpm/Models/WeeklyEvent.swift:76-84 | Below 0.60 the event is an owed 40-250. From 0.60 to below 0.99 it is a gain of 5-1500. From 0.99 it is an owed 400-800. |
| WeeklyEvents.AmountStringPrefix | GoodCents.swiftpm/Models/WeeklyEvent.swift:17-29 | The amount line starts with "You lost " exactly for owed events and with "You Gained " otherwise. |
| ProgressTime.EventEffect | GoodCents.swiftpm/Views/HelperViews/ProgressTime.swift:259-263 | An event moves spending by minus or plus its amount. It lowers spending exactly when owed (for a non-zero amount). |
| ProgressTime.TriggerWeeklyEvent | GoodCents.swiftpm/Views/HelperViews/ProgressTime.swift:250-274 | The current event is cleared first. Below the chance, the drawn event is shown, spending moves by its effect, and one "Everyday Spending" entry named after it is filed with the signed amount and the post-event balance. Otherwise nothing changes. |
| ProgressTime.EventAlmostAlways | GoodCents.swiftpm/Views/HelperViews/ProgressTime.swift:251-256 | Only a chance draw of exactly 1 skips the event. Every event moves spending by between −800 and +1500. |
| EventActions.PurchaseAddsOneUnit | GoodCents.swiftpm/Views/InteractiveEvents/InteractiveEventActionView.swift:97-109 | A purchase adds exactly one unit to the inventory. |
| EventActions.PurchaseKeepsOtherItems | GoodCents.swiftpm/Views/InteractiveEvents/InteractiveEventActionView.swift:97-109 | An owned item gains a unit in place and a new one is appended. Other entries are kept, and no empty entry appears. |
| EventActions.BuyThenSellRestores | GoodCents.swiftpm/Views/InteractiveEvents/InteractiveEventActionView.swift:97-109 | Buying an item not yet owned and then selling it gives back the original inventory. |
| EventActions.PurchaseItem | GoodCents.swiftpm/Views/InteractiveEvents/InteractiveEventActionView.swift:91-119 | Spending drops by the price with no funds check. The inventory gains one unit. One "Purchased" entry is filed with minus the price and the new balance, or 0 with no player. |
| EventActions.PerformAction | GoodCents.swiftpm/Views/InteractiveEvents/InteractiveEventActionView.swift:68-88 | A purchase buys the item. A transfer runs `transferFunds` between the action's accounts, with its refusals and moves. A dismiss changes no balance, item, ledger entry or flag. The outcome is always shown. |
| EventActions.ClampTransferAmount | GoodCents.swiftpm/Views/InteractiveEvents/InteractiveEventActionView.swift:214-220 | The amount ends in [minimum, max(minimum, source balance)] and is unchanged exactly when it was already there. |
| EventActions.ClampSettles | GoodCents.swiftpm/Views/InteractiveEvents/InteractiveEventActionView.swift:153-156 | Clamping is idempotent, and never exceeds a source balance that covers the minimum. |
| EventActions.InitialTransferAmount | GoodCents.swiftpm/Views/InteractiveEvents/InteractiveEventActionView.swift:260-262 | The field starts at the first action's minimum, or 0. |
| EventActions.ReplaceAllChanges | GoodCents.swiftpm/Views/InteractiveEvents/InteractiveEventActionView.swift:421-425 | Without an occurrence the text is unchanged. With one, a shorter replacement shortens the text and a longer one lengthens it. |
| EventActions.OutcomeWithoutPlaceholder | GoodCents.swiftpm/Views/InteractiveEvents/InteractiveEventActionView.swift:421-425 | A template without "${amount}" is shown as written. |
| EventActions.OutcomeLeadsWithAmount | GoodCents.swiftpm/Views/InteractiveEvents/InteractiveEventActionView.swift:421-425 | A leading "${amount}" becomes "$" and the two-decimal amount, and the rest is substituted in turn. |
| EventActions.NoPatternLeft | GoodCents.swiftpm/Views/InteractiveEvents/InteractiveEventActionView.swift:421-425 | Replacing every occurrence of a pattern that opens with "${" and holds no other '$', by "$" followed by text without '$' or '{', leaves no occurrence of the pattern. |
| EventActions.NoPlaceholderLeft | GoodCents.swiftpm/Views/InteractiveEvents/InteractiveEventActionView.swift:421-425 | For a non-empty amount text without '$' or '{', the outcome contains no "${amount}": every placeholder is replaced. |
| AccountDetail.Insert | GoodCents.swiftpm/Views/Money/AccountDetailView.swift:187 | Inserting into a descending list keeps it descending and adds exactly that element. |
| AccountDetail.SortDescending | GoodCents.swiftpm/Views/Money/AccountDetailView.swift:187 | The sort returns a descending permutation of its input. |
| AccountDetail.SortedHeadIsLargest | GoodCents.swiftpm/Views/Money/AccountDetailView.swift:267 | The head of the sorted list is an input element with the largest key. |
| AccountDetail.Filter | GoodCents.swiftpm/Views/Money/AccountDetailView.swift:167 | Keeps exactly the ledger entries of the account. |
| AccountDetail.HistoryContents | GoodCents.swiftpm/Views/Money/AccountDetailView.swift:167-187 | The history holds exactly the account's entries, as a multiset, newest first. It is empty, showing "No Transactions", exactly when the account has no entry. |
| AccountDetail.DescendingEverywhere | GoodCents.swiftpm/Views/Money/AccountDetailView.swift:187 | A list descending between neighbours is descending between any two positions. |
| AccountDetail.Magnitude | GoodCents.swiftpm/Views/Money/AccountDetailView.swift:95 | The displayed magnitude is never negative. |
| AccountDetail.SignAndMagnitude | GoodCents.swiftpm/Views/Money/AccountDetailView.swift:95 | The sign and magnitude rebuild the value, and the sign is "-" exactly for negative values. |
| AccountDetail.AllCategoriesListed | GoodCents.swiftpm/Views/Money/AccountDetailView.swift:278-287 | The category list holds every category exactly once, and the category names are distinct. |
| AccountDetail.BreakdownExpenses | GoodCents.swiftpm/Views/Money/AccountDetailView.swift:277-295 | The breakdown holds all eight categories, each valued at the weekly expenses times its percentage. |
| AccountDetail.BreakdownAddsUp | GoodCents.swiftpm/Views/Money/AccountDetailView.swift:278-292 | The category values add up to the weekly expenses, since the percentages sum to 1. |
| AccountDetail.RowsInOrder | GoodCents.swiftpm/Views/Money/AccountDetailView.swift:267 | One row per listed category, each carrying that category's value. |
| AccountDetail.HousingComesFirst | GoodCents.swiftpm/Views/Money/AccountDetailView.swift:267-292 | For positive expenses, the sorted breakdown is descending and its first row is Housing, the largest share. |
| AccountDetail.BreakdownRowsDescending | GoodCents.swiftpm/Views/Money/AccountDetailView.swift:267 | The displayed rows are ordered by value, largest first. |
| AccountDetail.HousingLargestAmount | GoodCents.swiftpm/Views/Money/AccountDetailView.swift:278-292 | For positive expenses, no other category reaches Housing's amount. |
| AccountDetail.HousingLargestShare | GoodCents.swiftpm/Views/Money/AccountDetailView.swift:278-287 | Only Housing has a share of 35% or more. |

## Left out

- Persistence is left out: saving the SwiftData context, `@Query` fetching and save failures. Deleting and inserting records are `seq` updates on `Store`, and a save that fails is ignored, as in the source.
- Views, layout, animation, mesh gradients, timers and the progress countdown are presentation only.
- Loading events and lessons from their JSON bundle files is left out. The event groups and lesson sections are inputs.
- The texts of the 25 quiz questions and their answers are left out. `Questions.BankWellFormed` covers the count and the correct indices only.
- The weekly events' description texts are left out, because they are display-only. The titles, owed flags and amounts are modelled.
- `NumberFormatter`, `String(format:)` and `Locale` are parameters. The model does not state what text they produce.
- IEEE-754 doubles are left out. Every property holds in exact real arithmetic, and rounding in the sums and interest is not modelled.
- Sort order among equal keys is not modelled. `sorted(by:)` is modelled as an insertion sort, and the properties proved (descending order, a permutation, Housing first) do not depend on how ties are broken.
- Dictionary iteration order in `breakdownExpenses` is not modelled. The breakdown is a map, the expense categories are an enumeration in place of string keys, and the display order is a parameter `order`.
- The position at which SwiftData returns a newly inserted record is not modelled. New items and completion records are appended to the end of their `seq`.
- `Date.now` is the store's counter: the model records the order of ledger entries, not wall-clock time.
- `CompletedLessons.deleteAll` (SwiftDataModels.swift:251-259) is not modelled separately. `Helpers.DeleteAllRecords` covers the same deletion of every completion record.
- The welcome pages' creation of the first player, job and calendar records is left out (onboarding UI). `Models.Player.constructor`, `Models.Job.constructor` and `Models.Time.constructor` cover record creation.
- The promotion table in JobOverview.swift is not part of this model. It repeats the `Job` tables for display.
- Questions.MakeQuestion requires the given correct index to be in range, because the source force-unwraps `firstIndex` and traps otherwise. `Questions.BankQuestionBuilds` shows that every bank question meets this.
- LessonDetail.LessonSession.constructor requires the lesson's questions to have distinct ids. Selections are keyed by question id, as SwiftUI's `ForEach(id: \.id)` needs, and with a shared id one question's selection could fall outside another's answers.
- EventActions.PerformAction requires the purchase item, and for a transfer the transfer details and a player, because the source force-unwraps them.
- Models.GenerateWeeklyExpenses requires an income of at least −40, because `Double.random(in:)` traps on an empty range. Every job income is at least 950.24.
- EventActions.PerformAction states only the number of ledger entries filed, where `EventActions.PurchaseItem` and `TransferMoney.TransferFunds` state the entries themselves.
