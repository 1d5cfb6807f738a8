# Analytics fill pipeline: a verified model

A Dafny model of the analytics pipeline of this Zulip fork, with proofs of what it is relied on for.

The pipeline fills four count tables from the message, audit and activity tables. Each statistic has one
`FillState` row. `process_count_stat` marks an end_time STARTED, inserts the rows its query yields, inserts
the realm and installation roll-ups, and marks the end_time DONE. These are separate autocommitted writes, a
run can die between any two of them, and the next run deletes what a STARTED end_time left behind. Web
workers log increments into the same tables meanwhile, and charts are read at any moment.

What is modelled, and where:

| file | content |
|---|---|
| `Lists`, `TimeGrid`, `Decimal`, `Grouping` | lists and nested-loop joins, hour and day boundaries, `str()` of an integer, GROUP BY over a bag of entries |
| `CountStats`, `CountTables`, `SourceData` | the declared stats, the rows of the count tables, the source tables |
| `Queries` | every pull query as nested-loop joins, and the increment of a logging stat |
| `FillMachine` | `process_count_stat` as a state machine, one step for each write, with crashes and traffic between the steps |
| `FillSpec` | what the tables are meant to hold, defined on the source alone |
| `FillSafety`, `FillExactness`, `FillRuns`, `CrashRecovery`, `Replay`, `RowUniqueness`, `Traffic`, `Origins` | invariants of every history, crash recovery, composition of runs, the uninterrupted run, uniqueness of rows, stability under later traffic, and what holds when the source is not stable |
| `Processor` | the imperative code, killed after a given number of writes, proved to follow the state machine |
| `Rollups`, `RowKeys`, `LoggingStats`, `LateIncrements` | conservation of the roll-ups, where the keys of rows come from, logging stats, late increments |
| `MessageCounts`, `MessageStats`, `ActiveUsers`, `ActiveUserStats`, `ActivityMinutes` | the queries against direct counts, and the stats in every reachable state |
| `Charts`, `ClientLabels`, `ChartData`, `LabelRanking`, `ChartExactness`, `ChartView` | the read path, up to `get_chart_data` |
| `Departures` | reachable states that show where the statistics do not meet their documentation |
| `Huddles`, `EmailDomains` | the huddle index and the domain rule of `zerver/models.py` |

How to read the main results. `Reach(src, es)` is the state after a history `es` of calls, single writes,
crashes, increments and changes of the source. `Exact(s, stat)` says that the FillState rows are consistent
and that stat's rows in every table are the ones `FillSpec` defines; `CrashRecovery.ReachIsExact` proves it
for every history that is `Stable` for the stat, and lemmas that take `Exact` or `DayCompleted` start from
there. `Stable` is the fixed-source hypothesis in its weakest form: the epoch stays, and traffic does not
change the rows of windows that are already filled or being filled. `Traffic.LaterTrafficIsStable` proves it
for every history whose traffic comes after what is filled: messages, audit events, activity that begins or is
extended, and new realms, users, streams and recipients; `LoggingStats` proves it for punctual increments.
`Origins` needs no such hypothesis: whatever is edited or deleted meanwhile, a completed end_time holds its
query on the source as it was when it was pulled.
Time is in microseconds.
A table is a sequence in insertion order; nothing depends on that order beyond the bag of rows
(`CountTables.SameViewsSameBag`).

Where the code departs from its documentation, the model follows the code:

- `last_successful_fill` subtracts one hour for daily stats too. `FillSafety.LastFillExactlyWhen` says exactly for which pairs of frequencies that is safe.
- The comment that the audit stat is the partial sum of the log stat leaves out three things: events on a day boundary, which the log counts a day earlier; the users made by `bulk_create_users` (`zerver/lib/bulk_create.py`), among them the internal bots of every new realm, whose audit rows come without an increment; and the reactivation of an account that is active, which `do_reactivate_user` does not refuse, and which the log counts and the audit does not see. `ActiveUserStats.AuditIsPartialSumOfLog` has the exact law, on any history of accounts; `PartialSumAgreesExactlyWhen` and `LoggedPartialSumAgreesExactlyWhen` say when the two agree; `Departures.InternalBotIsNotLogged` and `Departures.ReactivationIsLoggedTwice` are inputs on which they do not. The subgroups are also spelled differently, since one is the text of an SQL boolean and the other of a Python one.
- The by-user query, which counts per is_bot and per client, drops messages whose sender's `date_joined` is not before the end of the window; the by-type and by-stream queries do not test it. `do_activate_user` moves `date_joined` (`zerver/lib/actions.py`), so a window filled after that loses messages in the one and not in the others. `MessageStats.HourIsCompleteExactlyWhen` and `MessageStats.CrossStatAgreement` have the exact conditions, `Departures.MovedJoinDateDisagrees` an input. The charts are characterised for every source: a number counts the messages of the senders who had joined.
- A late increment is kept in the output table and missed by InstallationCount. `LateIncrements.InstallationMissesTheLate` says exactly when the two still agree.
- The suffix loop of `email_allowed_for_realm` also looks up the empty domain. `EmailDomains.LoopFollowsRuleExactlyWhen` says when that matters.

## Model

| member | source | states |
|---|---|---|
| TimeGrid.Floor | zerver/lib/timestamp.py:17-25 | the result is a grid point and t lies less than one step after it |
| TimeGrid.Ceiling | zerver/lib/timestamp.py:27-37 | the result is a grid point and t lies less than one step before it |
| TimeGrid.FloorAndCeilingAreTight | zerver/lib/timestamp.py:17-37 | floor is the greatest grid point not after t, ceiling the least not before it |
| TimeGrid.GridIsMultiples | zerver/lib/timestamp.py:17-37 | the grid points are the multiples of an hour or a day |
| TimeGrid.Units | zerver/models.py:1773 | an hour is 60 minutes and a day 24 hours of microseconds |
| SourceData.InstallationEpoch | analytics/models.py:25-27 | the epoch is the last day boundary not after any realm's creation, hence on every stat's grid |
| SourceData.EarliestCreation | analytics/models.py:26 | the minimum creation time over all realms, attained by one of them |
| FillSafety.EpochIsFirstDay | analytics/models.py:25-27 | what the runs and the charts take as the epoch is the day boundary at or before the earliest creation of a realm |
| Grouping.GroupSumSpec | analytics/lib/counts.py:169 | GROUP BY yields each occurring group once, with its whole sum, and keeps the total |
| Grouping.GroupSumWhere | analytics/lib/counts.py:334-338 | summing over any family of groups gives the same before and after GROUP BY |
| CountTables.SameViewsSameBag | analytics/models.py:44-55 | tables whose per-stat views agree hold the same bag of rows |
| CountTables.OfWithout | analytics/lib/counts.py:139-148 | the deletion of one stat's end_time is seen by that stat alone |
| FillSafety.ReachIsSafe | analytics/lib/counts.py:72-125 | in every history each FillState is on its grid, not before the epoch, STARTED only after it, and in step with the run at work |
| FillSafety.DependencySafety | analytics/lib/counts.py:102-112 | whenever a dependent stat has STARTED or completed a time past the epoch, each dependency has completed it, under any order of runs and crashes |
| FillSafety.LastFillIsSafe | analytics/models.py:29-35 | last_successful_fill names no uncompleted point of the dependent's grid |
| FillSafety.LastFillIsLastCompleted | analytics/models.py:29-35 | and it leaves out no completed one: on the stat's own grid it is the last completed end_time |
| FillSafety.LastFillExactlyWhen | analytics/models.py:29-35 | last_successful_fill names completed instants alone if and only if the dependency is DONE or hourly or the dependent is daily |
| FillSafety.TargetIsReached | analytics/lib/counts.py:102-109 | the dependency loop fails exactly on a missing dependency and else gives the least of the target and all fill times |
| FillSpec.AtFilled | analytics/lib/counts.py:129-137 | tables filled up to t hold at each end_time exactly that end_time's rows |
| FillExactness.UndoDeletes | analytics/lib/counts.py:91-96 | whatever part of a STARTED end_time was written, deleting it leaves the rows of the completed end_times |
| FillExactness.PullIsBase | analytics/lib/counts.py:430-453 | the query of a dependent stat finds in UserCount the rows its dependencies give on the source |
| FillExactness.RollupReads | analytics/lib/counts.py:150-189 | the roll-ups read the rows just inserted for this end_time and no others |
| FillExactness.ViewStep | analytics/lib/counts.py:111-120 | any call, write, crash, increment or undisturbing change keeps a stat's rows exact |
| FillExactness.ReachViewsOk | analytics/lib/counts.py:72-195 | main invariant: in every stable history each stat's rows in each table are exactly the specified ones, an end_time in progress having all or none of its rows in each table |
| CrashRecovery.CrashRecoveryIsExact | analytics/lib/counts.py:72-148 | any two histories that leave the same source and the same DONE FillState leave the same rows in all four tables |
| CrashRecovery.RunIsHistory | analytics/lib/counts.py:72-120 | an uninterrupted run is one such history |
| Replay.RecoveredLikeUninterrupted | analytics/lib/counts.py:72-148 | for every history an uninterrupted fill of the same source to the same end_time, dependencies first, exists and leaves the same rows in all four tables |
| Replay.RunOnce | analytics/lib/counts.py:72-120 | from any idle safe state a run can be made to its end, which sets the stat's FillState to the computed end_time and no other, and leaves stable histories stable |
| Replay.FillAll | analytics/lib/counts.py:536 | stats declared after their dependencies can be filled one after the other, each to t |
| CrashRecovery.CompletedRows | analytics/lib/counts.py:111-148 | a completed end_time reads exactly, also while a later one is half written or half undone |
| CrashRecovery.RollupsConserve | analytics/lib/counts.py:150-195 | at a completed end_time InstallationCount, RealmCount and the output table agree on every subgroup's sum, and InstallationCount has one row for each occurring subgroup |
| CrashRecovery.PulledRollupsConserve | analytics/lib/counts.py:150-195 | for the pulled stats this needs no more than the source's foreign keys into the realm table |
| RowKeys.BaseIsCovered | analytics/lib/counts.py:156-170 | when those resolve, the join with the realm table finds a realm for every row a query inserted |
| CrashRecovery.RealmRowsAreSums | analytics/lib/counts.py:155-170 | RealmCount has one row for each realm and subgroup that occurs, holding the sum of that realm's rows |
| Rollups.RealmRollupSpec | analytics/lib/counts.py:156-170 | the same for the query on any table |
| Rollups.RealmRollupConserves | analytics/lib/counts.py:156-170 | joining with realms loses and duplicates nothing when the foreign keys resolve |
| Rollups.InstallationRollupSpec | analytics/lib/counts.py:179-189 | one row for each subgroup of RealmCount, with its sum |
| RowUniqueness.PullUnique | analytics/lib/counts.py:287-453 | every pull inserts at most one row for each key and subgroup |
| RowUniqueness.NoRowTwice | analytics/models.py:57-96 | no table ever holds two rows of the same key, stat, subgroup and end_time, NULL subgroups included, also in the middle of a run or an undo |
| RowUniqueness.ConstraintsHold | analytics/models.py:57-96 | nor two rows that agree on the columns of unique_together, which leave out the realm of a user or stream, so no insert is refused |
| RowUniqueness.LoggedRowsFit | analytics/lib/counts.py:200-221 | a logging stat has rows of its own level alone: of users, streams or realms |
| Traffic.LaterTrafficIsStable | analytics/lib/counts.py:287-453 | every history whose traffic comes after what is filled is stable: messages, audit events, activity begun or extended, new realms, users, streams and recipients, any increments |
| Traffic.LaterTrafficUndisturbed | analytics/lib/counts.py:287-453 | one such change leaves the rows of every filled window of a stat as they were, in all four tables |
| Traffic.ActivityGrows | zerver/lib/actions.py:3386-3409 | activity logged from t on, whether it creates an interval or extends one in place, changes intervals after t alone |
| Traffic.InnerGroupingIsInvisible | analytics/lib/counts.py:305-339 | the inner GROUP BY of the message-type query leaves no trace after the outer one, not even in the order of rows |
| Origins.CompletedRowsAsPulled | analytics/lib/counts.py:111-195 | in every history with a fixed epoch, whatever happens to the source, a completed end_time was pulled and rolled up by two writes of it, and all tables still hold what the query gave then |
| Origins.CompletedBaseAsPulled | analytics/lib/counts.py:129-137 | for stats without dependencies that is the specified rows on the source of that moment |
| Origins.HumansAsPulled | analytics/lib/counts.py:430-453 | realm_active_humans joins the rows of its two dependencies as each was pulled before it |
| Origins.FindOrigins | analytics/lib/counts.py:72-195 | the invariant behind these, through calls, crashes, undos, increments and edits of the source |
| FillRuns.FinishedRunEnd | analytics/lib/counts.py:72-120 | a finished run ends at the greatest grid point not after its effective target, or where it started |
| FillRuns.CallOffTheHour | analytics/lib/counts.py:81-82 | a target that is no multiple of an hour changes nothing |
| FillRuns.NewStatStarts | analytics/lib/counts.py:84-87 | the first write for a stat without a FillState sets it DONE on the first day, and nothing else |
| FillRuns.DeclaredRunEnd | analytics/lib/counts.py:476-536 | stat by stat: messages_sent:is_bot:hour is filled to fill_to_time and the other independent stats to the start of its day, from the last completed end_time or the first day |
| FillRuns.DependentRunEnd | analytics/lib/counts.py:102-112 | realm_active_humans is filled to the least of the day of fill_to_time and what its two dependencies have completed, and not at all while one is missing |
| FillRuns.RunTerminates | analytics/lib/counts.py:112-120 | every run that is not cut off finishes |
| FillRuns.RunsCompose | analytics/lib/counts.py:72-120 | running to t1 and then to t2 leaves the FillStates and rows of one run to the later of the two |
| FillRuns.WritesElsewhere | analytics/lib/counts.py:72-148 | a run leaves every other stat's rows and FillState alone |
| Processor.Analytics.ProcessCountStat | analytics/lib/counts.py:72-120 | killed after any number of writes it is where the state machine leads, FillStates stay safe and exact rows exact; unkilled it ends at the computed end_time; a new stat begins on the first day; an unaligned target changes nothing |
| Processor.Analytics.Run | analytics/lib/counts.py:84-120 | the body after the argument checks follows the state machine write by write |
| Processor.Analytics.Fill | analytics/lib/counts.py:111-120 | so does the filling loop |
| Processor.Analytics.Target | analytics/lib/counts.py:102-109 | the loop computes the least of the target and the dependencies' fill times, or stops on a missing one |
| Processor.Analytics.DeleteCountsAtHour | analytics/lib/counts.py:139-148 | it makes the undo writes in order, or dies after some of them |
| Processor.Analytics.AggregateToSummaryTable | analytics/lib/counts.py:150-195 | it makes the roll-up writes in order, or dies after some of them |
| Processor.Analytics.FillCountStatAtHour | analytics/lib/counts.py:129-137 | the pull and then the roll-ups, for logging stats the roll-ups alone |
| Processor.Analytics.UpdateFillState | analytics/lib/counts.py:122-125 | one write of the FillState row, or nothing when the process is dead |
| Processor.Analytics.IncrementLoggingStat | analytics/lib/counts.py:200-221 | the table, the key and the end_time chosen from the object, the stat and the event_time, and the row found or created, give the database of the machine's increment event |
| Processor.PullMinutesActive | analytics/lib/counts.py:267-285 | the accumulating loop yields the rows of the grouped sum of clipped intervals |
| LoggingStats.LoggedSpec | analytics/lib/counts.py:216-221 | get_or_create with F('value') keeps one row per key, holding the sum of its increments |
| LoggingStats.LoggingLosesNothing | analytics/lib/counts.py:139-148 | under any interleaving the output table holds, per object, subgroup and end_time, the sum of the increments whose event_time ceils to it |
| LoggingStats.LoggedByWindow | analytics/lib/counts.py:211-214 | that is, the increments whose event_time lies after t less a step and not after t |
| LoggingStats.PunctualIsStable | analytics/lib/counts.py:211-214 | punctual increments disturb no filled window |
| LoggingStats.PunctualLoggingReachesInstallation | analytics/lib/counts.py:178-189 | then a completed InstallationCount is the sum of all increments of its subgroup |
| LateIncrements.InstallationMissesTheLate | analytics/lib/counts.py:178-221 | in every history, at every level, a completed InstallationCount is the sum of the increments that had arrived when its roll-up began, the output table of all, and they agree exactly if the later ones net to 0 |
| MessageCounts.JoinCountsMessages | analytics/lib/counts.py:287-302 | the join has one tuple for each message that a user of the list sent in the window after joining |
| MessageCounts.LeftJoinTypes | analytics/lib/counts.py:331-333 | the LEFT JOIN never duplicates, and the stream it matches by accident never changes the type; NULL invite_only is public |
| MessageCounts.TypesByKind | zerver/models.py:1119-1121 | the types by the numbers of the recipient kinds and by the stream's invite_only |
| MessageCounts.TypedJoinCountsMessages | analytics/lib/counts.py:311-333 | each message is joined once, with the type its recipient defines |
| MessageCounts.TwoLevelTypes | analytics/lib/counts.py:305-339 | the two-level grouping equals the direct count per user and type |
| MessageCounts.StreamJoinCountsMessages | analytics/lib/counts.py:345-366 | messages_in_stream counts each message that a known user sent to a known stream once |
| MessageStats.ExactlyOnce | analytics/lib/counts.py:479-481 | over all completed hours and subgroups InstallationCount sums to the number of messages since the epoch whose sender had joined by the end of the hour, and to that of all messages exactly if every sender had; no message sent since the first realm's creation is before the epoch |
| MessageStats.EveryMessageOnce | analytics/lib/counts.py:479-481 | so when nobody sends before joining it is the number of all messages |
| MessageStats.HourIsCompleteExactlyWhen | analytics/lib/counts.py:298 | an hour counts all of its messages if and only if every sender had joined by its end |
| MessageStats.CrossStatAgreement | analytics/lib/counts.py:479-486 | for every user and completed day, exactly when the 24 hourly counts, the per-client counts and the per-type counts agree, pair by pair; the per-type ones are always the user's messages of the day |
| MessageStats.HourlyDayCount | analytics/lib/counts.py:479-481 | the 24 hourly counts sum to the messages of the hours by whose end the user had joined |
| MessageStats.TypeCount | analytics/lib/counts.py:482-483 | the value stored for a user and type is the number of such messages |
| MessageStats.ClientCount | analytics/lib/counts.py:484-486 | the value stored for a user and client is the number of messages sent through that client, or 0 if the user had not joined by then |
| MessageStats.RealmHourCount | analytics/lib/counts.py:479-481 | RealmCount holds the number of messages that the realm's bots, or humans, who had joined sent in the hour |
| MessageStats.RealmTypeCount | analytics/lib/counts.py:482-483 | RealmCount holds the number of messages of the type that the realm's users sent that day |
| MessageStats.RealmClientCount | analytics/lib/counts.py:484-486 | RealmCount holds the number of messages that the realm's users who had joined sent through the client that day |
| MessageStats.StreamCount | analytics/lib/counts.py:487-489 | StreamCount holds the number of messages that bots, or humans, sent to the stream that day |
| MessageStats.WindowsTile | analytics/lib/counts.py:299-300 | counts over adjacent half-open windows add up |
| Decimal.StrInjective | zerver/models.py:1723 | different integers are written differently |
| Decimal.ReadStr | zerver/models.py:1723 | reading the digits gives the integer back |
| ActiveUsers.LastEventTimeSpec | analytics/lib/counts.py:397-404 | the sub-query finds the latest relevant event before the end |
| ActiveUsers.AuditCountsActives | analytics/lib/counts.py:391-413 | the query yields one tuple for each user whose last relevant event activated the account, and no other |
| ActiveUsers.LeftOnIsActive | analytics/lib/counts.py:391-413 | active means that the last user_created, user_deactivated, user_activated or user_reactivated event before the time is not user_deactivated |
| ActiveUserStats.AuditRowExactlyWhen | analytics/lib/counts.py:391-413 | in UserCount a user has a row at a completed day exactly if the account was last turned on before it, and then value 1 under the user's realm and kind |
| ActiveUsers.RecentRows | analytics/lib/counts.py:415-428 | one row for each user with an interval meeting the window, whatever their number |
| ActiveUsers.HumansQueryCounts | analytics/lib/counts.py:430-453 | the join of the two stats counts the users in both sets, each once |
| ActiveUserStats.ActiveHumansCount | analytics/lib/counts.py:529-533 | realm_active_humans at a completed day is the number of users both human-active and recently active, at most the active humans, with a row exactly if it is not 0 |
| ActiveUserStats.ActiveHumansSpelledOut | analytics/lib/counts.py:415-453 | the same by the names of the events and the length of the interval |
| ActiveUserStats.DeactivatedIsNoHuman | analytics/lib/counts.py:397-404 | a user whose last event is user_deactivated is in no realm's active humans |
| ActiveUserStats.NetIsActive | analytics/lib/counts.py:500-504 | on any history, the net of the events that change the account is 1 while the user is active and 0 otherwise |
| ActiveUserStats.MirrorsAreNet | zerver/lib/actions.py:530-534 | the increments that go with the audit events sum to the realm's net activations |
| ActiveUserStats.AuditRealmCount | analytics/lib/counts.py:497-499 | RealmCount of the audit stat is the number of active users of the realm and kind |
| ActiveUserStats.AuditIsPartialSumOfLog | analytics/lib/counts.py:500-504 | on any history, the partial sum of the log stat and the net of the unlogged events make up the audit stat, the net of the events exactly on the boundary and that of the redundant events before it |
| ActiveUserStats.PartialSumAgreesExactlyWhen | zerver/lib/actions.py:569-580 | with nothing on the boundary, creations alone unlogged and activations alone redundant, the partial sum is short by the number of unlogged creations and over by that of redundant activations, so the two agree exactly if these are equally many |
| ActiveUserStats.LoggedPartialSumAgreesExactlyWhen | analytics/lib/counts.py:500-504 | with all of the realm's events logged, the two agree exactly if the events on the boundary and the redundant ones before it net to 0 |
| ActiveUserStats.RealmNetNone | analytics/lib/counts.py:500-504 | events about others or at other times add nothing, so without events on the boundary its net is 0 |
| Departures.InternalBotIsNotLogged | zerver/lib/bulk_create.py:33-36 | a reachable state in which the audit stat holds 1 and the partial sum of the log stat 0 |
| Departures.ReactivationIsLoggedTwice | zerver/lib/actions.py:569-580 | a reachable state in which the audit stat holds 1 and the partial sum of the log stat 2 |
| Departures.MovedJoinDateDisagrees | zerver/lib/actions.py:555 | a reachable state in which a message is in the per-type count of its day and in neither the hourly nor the per-client ones |
| ActivityMinutes.ActiveTimeAdds | analytics/lib/counts.py:275-279 | clipped activity is additive over adjacent windows |
| ActivityMinutes.ClippedSum | analytics/lib/counts.py:267-279 | the filtered loop equals the sum of max(0, overlap) over all of the user's intervals |
| ActivityMinutes.MinutesBoundActivity | analytics/lib/counts.py:281-285 | over n days the reported minutes never exceed the activity and fall short by less than n minutes |
| Charts.TimeRange | analytics/lib/time_utils.py:11-31 | exactly the grid points up to floor(end) that are not before start or are among the last min_length, in order |
| Charts.ChartTimes | analytics/views.py:81-103 | exactly when which error is raised, by the FillState, and the end_times otherwise |
| Charts.ValueArrays | analytics/views.py:188-196 | one array for each label that is wanted, holding at each end_time the last matching row's value or 0 |
| ChartData.TimeSeriesBySubgroup | analytics/views.py:182-203 | for the client stat, one array for each new label, holding the sum of the old labels' values mapped to it, and 0 where there is no array |
| ChartExactness.ChartedValue | analytics/views.py:190-196 | with unique rows the overwriting dictionary loses nothing |
| ChartExactness.ChartedTimesAreCompleted | analytics/views.py:94-103 | the default end reaches exactly the completed end_times, also while the stat is STARTED |
| ChartExactness.WindowIsCompleted | analytics/views.py:94-103 | so with it the charted end_times are exactly the completed ones from start on, padded |
| ChartExactness.RealmMessagesChart | analytics/views.py:56-61 | every realm number charted after the epoch is the number of messages that the realm's humans, or bots, who had joined sent in its hour, before it 0 |
| ChartExactness.UserMessagesChart | analytics/views.py:56-61 | the same for the user series |
| ChartExactness.RealmTypeChart | analytics/views.py:62-70 | every realm number is the number of messages of its type that day |
| ChartExactness.UserTypeChart | analytics/views.py:62-70 | the same for the user series |
| ChartExactness.RealmClientChart | analytics/views.py:71-78 | every realm number under a label is the number of messages that day through any client that client_label_map shows under it |
| ChartExactness.UserClientChart | analytics/views.py:71-78 | the same for the user series |
| ChartExactness.HumansChart | analytics/views.py:50-55 | every charted number of humans is the size of the set of active, recently active humans |
| ChartView.GetChartData | analytics/views.py:45-116 | each of the four charts by its name: exactly when which error is raised, and otherwise the end_times, the labels, the series and the display order |
| ChartView.RealmNumbersAreCounts | analytics/views.py:102-108 | with the default end, every number of every chart's realm series, under any label, is the count of source rows of its window, and 0 before the epoch |
| ChartView.UserNumbersAreCounts | analytics/views.py:109-111 | the same for every user series |
| ClientLabels.RewriteClientArrays | analytics/views.py:171-180 | each new array is the pointwise sum of the arrays mapped to its label, and the total at each index is unchanged |
| ClientLabels.MergedIsUnique | analytics/views.py:171-180 | the result does not depend on the iteration order |
| ClientLabels.ClientLabelSpec | analytics/views.py:152-169 | the new label of every name, spelled out |
| LabelRanking.SortByTotals | analytics/views.py:118-121 | all labels, each with a larger sum than the next or with the same sum and the later name |
| LabelRanking.SumIsAdditive | analytics/views.py:119 | the sum is additive, and a single value is its own sum |
| LabelRanking.LessIsPrecedes | analytics/views.py:120 | names are compared by the first character that differs, a prefix coming first |
| LabelRanking.RankingIsUnique | analytics/views.py:118-121 | the ranking does not depend on the dictionary's order |
| LabelRanking.NoTies | analytics/views.py:132-136 | no two labels have the same sort value |
| LabelRanking.SortClientLabels | analytics/views.py:123-138 | all labels of both, each once; for every n a prefix of at most 2n labels holds exactly the n with the largest sums in the realm and the n with the largest of the user; of equal ranks the user's label comes first |
| LabelRanking.DisplayIsFair | analytics/views.py:123-128 | for every n the two top-n sets together are exactly a prefix of the display, at most 2n long |
| Huddles.JoinInjective | zerver/models.py:1722-1723 | comma-joined ids determine the list |
| Huddles.HashKeyInjective | zerver/models.py:1721-1724 | different sets of members have different hash keys |
| Huddles.HashKeySpec | zerver/models.py:1721-1724 | the key is the ids in ascending order, in decimal, with commas between them |
| Huddles.HuddleIndex.GetHuddle | zerver/models.py:1731-1747 | one huddle for each distinct set whatever the order of calls and ids; a repeated id fails exactly for a new huddle and changes nothing |
| Huddles.HuddleIndex.GetHuddleRecipient | zerver/models.py:1256-1262 | the huddle's only recipient, subscribed by exactly the members, each once |
| EmailDomains.FoundStep | zerver/models.py:437-440 | one turn of the suffix loop |
| EmailDomains.SubdomainAllowed | zerver/models.py:436-440 | the loop terminates and accepts exactly the dot-boundary suffixes registered with allow_subdomains, and any domain if the empty one is |
| EmailDomains.EmailAllowedForRealm | zerver/models.py:424-441 | the verdict of every branch, for the lowered part after the last @ |
| EmailDomains.DomainIsDetermined | zerver/models.py:408-409 | that part is unique, and neither what precedes it nor the case of letters matters to it |
| EmailDomains.SameVerdict | zerver/models.py:424-441 | so two emails that differ in these alone get the same verdict |
| EmailDomains.LoopFollowsRuleExactlyWhen | zerver/models.py:436-440 | the code follows the rule on names for all domains if and only if the empty domain is not registered with allow_subdomains |

## Left out

- `active_users:is_bot:day`: it reads the current is_active, so its rows depend on when it runs.
- `count_stream_by_realm_query`: unused, and its SQL is malformed.
- `do_drop_all_analytics_tables`, `do_drop_single_stat` and the migrations: they break the fill invariants on purpose.
- Traffic.LaterTrafficIsStable: does not cover rows other than activity intervals that change in place (a moved date_joined, is_bot, invite_only or realm) and deletions; after these the windows already filled keep what `Origins` says.
- Concurrent runs: the management command's lock directory admits one run at a time, and the model relies on it.
- LoggingStats.LoggedSpec: does not model two simultaneous get_or_create calls, which for a NULL subgroup could insert the row twice; an increment is one atomic step.
- Processor.PullMinutesActive: does not model the rounding of float seconds; activity is summed in integer microseconds.
- MessageCounts.JoinCountsMessages: does not model grouping by the client's integer id and casting it to text later; it groups by the text, which `Decimal.StrInjective` shows to be the same.
- ClientLabels.RewriteClientArrays: does not model arrays of different lengths, which its caller never builds.
- EmailDomains.EmailAllowedForRealm: does not model lower-casing beyond ASCII letters; the list of disposable domains is a parameter.
- Huddles.HuddleIndex.GetHuddle: does not model the memcached layer; the digest is a parameter assumed free of collisions.
- ChartView.GetChartData: does not model the text of the errors, the echoed frequency and the JSON encoding.
- `get_user_activity_summary`, the HTML tables and ad hoc reports of `analytics/views.py`.
- The cascades that deleting a realm, user or stream sets off in the count tables.
- Anomaly rows, the primary keys of the count tables and the time zone checks of `verify_UTC`.
- `analytics/lib/fixtures.py`: random test data.
