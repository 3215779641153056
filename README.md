# lupt: prayer-time entity and automation trigger, modelled in Dafny

The `lupt` Home Assistant integration publishes London Unified Prayer Times. It has two parts.

- **The entity.** Its state is the current prayer period. It
  splits the Sunrise period into "Duha" and, in the last `zawaal_mins` minutes before Zuhr,
  "Zawaal". Its attributes are the next occurrence of every tracked event
  (`next_<name>`), the Islamic date and four timetable statistics.
- **Wake-ups.** The entity keeps these current with three
  single-shot wake-ups. The prayer-time wake-up fires at the next period change.
  The Islamic-date wake-up fires at the next rollover, which is Maghrib or local midnight depending on the
  configured strategy. The daily timetable refresh fires at 00:15 local on the next day.
- **The trigger.** The `lupt` automation trigger is a listener. It waits for the next occurrence of one
  named event, shifted by a signed offset. When that comes it re-arms itself and
  runs the automation's action.

The model is organised as follows.

- **Instants** are whole minutes since 2021-10-01 00:00 UTC. Local time is UTC, so
  `start_of_local_day` floors to a multiple of 1440 (module `Instants`).
- **Timetable queries.** The timetable library's queries get a concrete stand-in, module `Timetables`. A
  timetable is the time-sorted list of every (event, instant) occurrence it covers.
  - `get_now_and_next(tt, events, t)` returns the last occurrence of `events` at or before `t` and the first one strictly after `t`.
  - When either is missing the stand-in answers with an error, which the model propagates the way an exception escapes.
  - `get_islamic_date` reads a day-number map.
- **The host scheduler** (`async_track_point_in_utc_time` and its cancel callables) is the
  class `Host.Scheduler`. It holds a map of pending wake-ups under fresh handles.
- **The pure decisions** of the entity are functions in `PrayerLogic`: the tracked list, the strategy, the Duha/Zawaal split, the rollover instant and the refresh instant.
- **The entity itself** is the class `Integration.Lupt`. Its fields are the source's URL, Zawaal window, strategy, tracked list, timetable, state, attributes and the three cancel handles, with the display-string substitution as a function field `rewrite`; `hass` and the library's configuration dictionary are not fields. Each
  method is proved to compute a function over a snapshot value (its fields plus the
  scheduler's wake-ups), and the lemmas beside those functions state what the
  handlers guarantee. After a successful refresh the entity is *serving*:
  - the statistics and the next occurrences are published, each tracked event's `next_` attribute holding that event's own next occurrence when no two events share a display key;
  - the state and the Islamic date are those decided now;
  - each of the three wake-ups is armed at its instant;
  - every kind of wake-up whose pending ones the entity held ends with exactly the new one.
- **The listener** is the class `Trigger.Listener`; `AttachTrigger` builds its payload.
- **`Fixtures`** replays `test_calculate_next_time` and `test_track_event`. It adds two examples of its own on the tests' 1–3 October 2021 timetable: the Zawaal split and the rollover.

## Model

| member | source | states |
|---|---|---|
| PrayerLogic.StrategyFor | custom_components/lupt/__init__.py:67-71 | the strategy is AT_MAGHRIB exactly when the option is set, AT_MIDNIGHT exactly when it is not |
| PrayerLogic.TrackedTimes | custom_components/lupt/__init__.py:77-83 | the tracked list has the default list's length; each entry is "Asr Mithl 2" where the default is "Asr Mithl 1" and the second method is chosen, and otherwise the default entry, in order |
| PrayerLogic.TrackedTimesMembership | custom_components/lupt/__init__.py:77-83 | without the option the defaults are kept; with it no "Asr Mithl 1" remains, "Asr Mithl 2" is tracked exactly when either Asr label was a default, and every other event is tracked exactly when it was a default |
| PrayerLogic.Decide | custom_components/lupt/__init__.py:214-226 | a non-Sunrise period reports the rewritten event name and the next event's time; in the Sunrise period it reports Zawaal and the next time from `next - delta` on (boundary included), and Duha with wake-up at `next - delta` before it; the wake-up is strictly after `dt` and never after the next event |
| PrayerLogic.PrayerState | custom_components/lupt/__init__.py:212-230 | answers exactly when the query answers and otherwise fails with a missing event; the reported transition is strictly after `dt`; the state is Duha, Zawaal or a tracked event's display name |
| PrayerLogic.PrayerStateStable | custom_components/lupt/__init__.py:137-145 | on a sorted timetable every instant from `dt` up to the reported transition yields the same decision, so the armed wake-up misses no change |
| PrayerLogic.MidnightRollover | custom_components/lupt/__init__.py:190-192 | `start_of_local_day(dt) + 1 day` is strictly after `dt`, at most a day later, a midnight, on the next date, and the minute before it is on `dt`'s date |
| PrayerLogic.Rollover | custom_components/lupt/__init__.py:187-192 | at Maghrib: the next Maghrib occurrence after `dt` and its date, failing exactly when there is none; at midnight: the next midnight and `dt`'s own date; the rollover is strictly after `dt` |
| PrayerLogic.RolloverIsNextMaghrib | custom_components/lupt/__init__.py:187-189 | on a sorted timetable a successful at-Maghrib rollover is no later than any Maghrib after `dt`: it is the next Maghrib |
| PrayerLogic.MidnightDateConstantOverDay | custom_components/lupt/__init__.py:190-192 | under the at-midnight strategy two instants of one local day give the same rollover and date |
| PrayerLogic.MaghribRolloverAtMaghrib | custom_components/lupt/__init__.py:187-189 | under the at-Maghrib strategy rollover and date stay fixed up to Maghrib, and recomputed at Maghrib the rollover is the following Maghrib: later, with no Maghrib skipped |
| PrayerLogic.RefreshInstant | custom_components/lupt/__init__.py:126-130 | the refresh instant is strictly after `now`, at most a day and 15 minutes later, at 00:15, on the next date |
| Instants.StartOfLocalDay | custom_components/lupt/__init__.py:128 | the start of day is the midnight at or before `t` on the same date, less than a day before it |
| Instants.DateOf | custom_components/lupt/__init__.py:189-192 | the date of an instant is the day whose 1440 minutes contain it |
| Instants.SameDateIffSameStartOfDay | custom_components/lupt/__init__.py:191-192 | two instants share a date exactly when they share a start of day |
| PrayerLogic.IslamicDateText | custom_components/lupt/__init__.py:195 | the text is the day, a space, the month, a space and the year, each part at its place |
| PrayerLogic.IslamicDateTextDetermines | custom_components/lupt/__init__.py:195 | when day and year hold no space, two Islamic dates with the same text are the same date |
| Integration.NextKeyName | custom_components/lupt/__init__.py:205-209 | an event's key is named `next_` followed by its display name, every character lower-cased |
| Labels.LowerEachChar | custom_components/lupt/__init__.py:205-207 | lower-casing a display name maps each character on its own |
| Timetables.NowAndNext | custom_components/lupt/__init__.py:214 | an answer is two occurrences of asked events from the timetable with `current <= t < next`; a miss is a missing-event error |
| Timetables.NextOccurrence | custom_components/lupt/__init__.py:204 | the next occurrence of the event is strictly after `t` and in the timetable |
| Timetables.IslamicDateOn | custom_components/lupt/__init__.py:194 | the lookup answers exactly for dates the timetable covers, with that date's entry, and otherwise fails with a missing date |
| Timetables.NowAndNextOkIff | custom_components/lupt/__init__.py:214 | the query answers exactly when some asked occurrence is at or before `t` and some is after it |
| Timetables.NextAfterNoneIff | custom_components/lupt/trigger.py:89-92 | there is no next occurrence exactly when all asked occurrences are at or before `t` |
| Timetables.LatestNoneIff | custom_components/lupt/__init__.py:214-215 | there is no current occurrence exactly when all asked occurrences are after `t` |
| Timetables.NextAfterIsEarliest | custom_components/lupt/__init__.py:218 | on a sorted timetable the next occurrence is the earliest asked one after `t` |
| Timetables.LatestIsLatest | custom_components/lupt/__init__.py:215 | on a sorted timetable the current occurrence is the latest asked one at or before `t` |
| Timetables.NextAfterStable | custom_components/lupt/__init__.py:218 | the next occurrence is the same from `t1` up to that occurrence |
| Timetables.LatestUnchanged | custom_components/lupt/__init__.py:215 | the current occurrence is the same while no asked occurrence falls in `(t1, t2]` |
| Timetables.NowAndNextStable | custom_components/lupt/__init__.py:214-218 | on a sorted timetable the answer is the same from `t1` up to the next occurrence it reports |
| Timetables.OnlyMembers | custom_components/lupt/trigger.py:89-91 | the filtered list holds exactly the occurrences of the asked events |
| Timetables.NextAfterOnly | custom_components/lupt/trigger.py:89-92 | the next occurrence depends only on the asked events' occurrences |
| Timetables.LatestOnly | custom_components/lupt/__init__.py:214-215 | the current occurrence depends only on the asked events' occurrences |
| Timetables.NowAndNextOnly | custom_components/lupt/trigger.py:89-91 | the query answers the same on the timetable reduced to the asked events |
| Host.HandlesAfterCancel | custom_components/lupt/__init__.py:94-97 | calling a cancel handle withdraws that handle and no other |
| Host.HandlesAfterTrack | custom_components/lupt/__init__.py:143-145 | arming under a fresh handle adds it for its own target only |
| Host.Scheduler.constructor | custom_components/lupt/trigger.py:103-105 | the scheduler starts with nothing pending and no handle issued |
| Host.Scheduler.Track | custom_components/lupt/trigger.py:103-105 | arming returns a handle never issued before and adds exactly its wake-up |
| Host.Scheduler.Cancel | custom_components/lupt/trigger.py:83 | a cancel call withdraws that handle's wake-up, if still pending, and nothing else |
| Host.Scheduler.Fire | custom_components/lupt/trigger.py:107-108 | firing delivers and removes exactly the one pending wake-up |
| Integration.KeyNamesDistinct | custom_components/lupt/__init__.py:176-179 | distinct attribute keys have distinct published names, so no `next_` attribute overwrites a statistic or an Islamic-date attribute |
| Integration.StatsAttrs | custom_components/lupt/__init__.py:173-179 | the four statistics are set from the timetable and every other attribute is kept |
| Integration.NextTimesEffectWrites | custom_components/lupt/__init__.py:114-116 | the loop succeeds exactly when every tracked event has a next occurrence; each attribute it writes is a tracked event's `next_` attribute holding that event's next occurrence after `dt`; on success every tracked event's attribute is written, and when no two tracked events share a display key each holds its own event's next occurrence |
| Integration.PublishedAfterLoop | custom_components/lupt/__init__.py:112-116 | after the statistics and the loop, the statistics are published and every tracked event's `next_` attribute holds an instant after `now`, which is that event's own next occurrence when no two of the tracked events and Maghrib share a display key |
| Integration.PrayerTimeEffectSpec | custom_components/lupt/__init__.py:212-230 | on a miss nothing changes; otherwise the state is the decided one, the returned instant is the decided transition after `dt`, and the only attribute written is the raw current event's `next_` attribute |
| Integration.PrayerTimeKeepsPublished | custom_components/lupt/__init__.py:202-210 | computing the prayer time writes only the current event's own next occurrence, so the statistics and every tracked event's own next occurrence stay published |
| Integration.IslamicDateEffectSpec | custom_components/lupt/__init__.py:181-200 | on success the rollover instant (after `dt`) is returned and the looked-up Islamic date is published as `"{day} {month} {year}"` with year, month and day; only the four Islamic attributes and, at Maghrib, the next Maghrib attribute are written; a failed rollover changes nothing and a missing date fails |
| Integration.IslamicDateKeepsPublished | custom_components/lupt/__init__.py:181-200 | computing the Islamic date writes only Maghrib's own next occurrence and the Islamic attributes, so the statistics and every tracked event's own next occurrence stay published; on success the date of the rollover's Gregorian date is published |
| Integration.CancelledKeeps | custom_components/lupt/__init__.py:94-97 | cancelling a kept handle keeps the handles coherent and withdraws that handle's wake-up alone |
| Integration.ArmedKeeps | custom_components/lupt/__init__.py:143-145 | arming keeps every pending wake-up and adds the fresh handle for its own target only |
| Integration.PrayerTimeStepFrame | custom_components/lupt/__init__.py:137-145 | `update_prayer_time` keeps the handles coherent, keeps the other handles and wake-ups, adds one prayer-time wake-up under the next handle on success, and arms nothing when it raises (only on a missing event) |
| Integration.PrayerTimeStepArms | custom_components/lupt/__init__.py:137-145 | on success the decided state is published and the wake-up is armed at the decided transition; the statistics and each tracked event's own next occurrence stay published |
| Integration.IslamicDateStepFrame | custom_components/lupt/__init__.py:147-156 | `update_islamic_date` keeps the state, the other handles and wake-ups, and adds one Islamic-date wake-up under the next handle on success only |
| Integration.IslamicDateStepArms | custom_components/lupt/__init__.py:147-156 | on success the chosen Islamic date is published and the wake-up is armed at the rollover; the statistics and each tracked event's own next occurrence stay published |
| Integration.ReloadServes | custom_components/lupt/__init__.py:99-116 | adopting a timetable touches no wake-up and no handle; when every tracked event has a next occurrence the statistics and each tracked event's own next occurrence in the new timetable are published |
| Integration.RestartPrayerTimeFrame | custom_components/lupt/__init__.py:120-121 | restarting withdraws only the held prayer-time wake-up, keeps the others; when the handle held every pending prayer-time wake-up, the new one is the only one |
| Integration.RestartPrayerTimeServes | custom_components/lupt/__init__.py:120-121 | restarting keeps the statistics and each tracked event's own next occurrence published and on success publishes the decided state and arms the decided transition |
| Integration.RestartIslamicDateFrame | custom_components/lupt/__init__.py:123-124 | restarting withdraws only the held Islamic-date wake-up, keeps the state and the prayer-time wake-up; when the handle held every pending one, the new one is the only one |
| Integration.RestartIslamicDateServes | custom_components/lupt/__init__.py:123-124 | restarting keeps the statistics and each tracked event's own next occurrence published and on success publishes the chosen date and arms the rollover |
| Integration.RefreshArmServes | custom_components/lupt/__init__.py:126-135 | the previous refresh is withdrawn and the refresh armed for 00:15 local on the next day; the published statistics and next occurrences, the state, the date and their wake-ups are kept; when the handle held every pending refresh, the new one is the only one |
| Integration.TimetableStepServes | custom_components/lupt/__init__.py:99-135 | the fetched timetable is used, else the cached one; with neither nothing changes and the error escapes; on success the entity is serving (statistics and each tracked event's own next occurrence published, state and date decided at `now`, all three wake-ups armed at their instants) and each kind of wake-up the entity held ends with exactly the new one |
| Integration.InitStepServes | custom_components/lupt/__init__.py:89-92 | since the pending refresh is withdrawn first, a successful initialisation leaves the entity serving (each tracked event's own next occurrence published, state, date and all three wake-ups as decided at `now`) with exactly one refresh pending |
| Integration.Lupt.constructor | custom_components/lupt/__init__.py:62-87 | the fields are the configured url and Zawaal window, the strategy of the option, the tracked list of the Asr option and the rewrite; no timetable, state, attribute or handle yet |
| Integration.Lupt.CalculateStats | custom_components/lupt/__init__.py:173-179 | the attributes become the statistics update of the old attributes |
| Integration.Lupt.CalculateNextPrayerTime | custom_components/lupt/__init__.py:202-210 | returns the event's next occurrence and writes exactly its `next_` attribute; a miss writes nothing |
| Integration.Lupt.CalculatePrayerTime | custom_components/lupt/__init__.py:212-230 | state, attributes and result are those of the prayer-time effect |
| Integration.Lupt.CalculateIslamicDate | custom_components/lupt/__init__.py:181-200 | attributes and result are those of the Islamic-date effect |
| Integration.Lupt.UpdatePrayerTime | custom_components/lupt/__init__.py:137-145 | the new fields and wake-ups are the prayer-time step of the old ones |
| Integration.Lupt.UpdateIslamicDate | custom_components/lupt/__init__.py:147-156 | the new fields and wake-ups are the Islamic-date step of the old ones |
| Integration.Lupt.CancelIfDefined | custom_components/lupt/__init__.py:94-97 | a defined handle's wake-up is withdrawn; an undefined one changes nothing |
| Integration.Lupt.PublishNextTimes | custom_components/lupt/__init__.py:114-116 | the loop's attributes and outcome are those of the loop effect over the tracked list |
| Integration.Lupt.RestartPrayerTime | custom_components/lupt/__init__.py:120-121 | cancel the held prayer-time handle, then the prayer-time step |
| Integration.Lupt.RestartIslamicDate | custom_components/lupt/__init__.py:123-124 | cancel the held Islamic-date handle, then the Islamic-date step |
| Integration.Lupt.ScheduleRefresh | custom_components/lupt/__init__.py:126-135 | the previous refresh is cancelled and a new one armed at the refresh instant, its handle kept |
| Integration.Lupt.UpdateTimetable | custom_components/lupt/__init__.py:99-135 | the new fields and wake-ups are the refresh step of the old ones, with fetch and cache results as given |
| Integration.Lupt.AsyncInit | custom_components/lupt/__init__.py:89-92 | the new fields and wake-ups are the initialisation step of the old ones |
| Trigger.Description | custom_components/lupt/trigger.py:31-33 | the description is the event name when the offset is zero and the event name followed by " with offset" otherwise |
| Trigger.TriggerIdOf | custom_components/lupt/trigger.py:28 | a trigger id is present exactly when the automation information carries one, and is that value |
| Trigger.AttachTrigger | custom_components/lupt/trigger.py:26-54 | the listener is new, for the configured event and offset, with payload (domain, event, offset, description, trigger id); it is attached: on success the new handle is kept and exactly one wake-up is added, at the listener's fire instant, every other wake-up kept; on failure nothing is armed; an idle target ends with exactly the attached wake-up |
| Trigger.Listener.constructor | custom_components/lupt/trigger.py:60-67 | the listener keeps job, event and offset and holds no handle |
| Trigger.Listener.CalculateNextTime | custom_components/lupt/trigger.py:86-93 | is `next(dt - offset) + offset`: strictly after `dt`, an occurrence of the event shifted by the offset; a missing cache or occurrence is an error |
| Trigger.Listener.NextTimeIsEarliest | custom_components/lupt/trigger.py:86-93 | on a sorted timetable the fire instant is the earliest shifted occurrence after `dt` |
| Trigger.Listener.NextTimeOkIff | custom_components/lupt/trigger.py:86-93 | a fire instant exists exactly when a shifted occurrence lies at or before `dt` and one after it |
| Trigger.Listener.NextTimeStable | custom_components/lupt/trigger.py:86-93 | recomputing at any instant before the fire instant gives the same fire instant |
| Trigger.Listener.NextTimeOwnEventOnly | custom_components/lupt/trigger.py:89-91 | only occurrences of the listener's own event decide its fire instant |
| Trigger.Listener.ListenNextEvent | custom_components/lupt/trigger.py:95-105 | on success one wake-up at the fire instant is added under a fresh handle that is kept; on failure nothing changes |
| Trigger.Listener.Attach | custom_components/lupt/trigger.py:73-77 | as listening; a listener attached while idle then holds exactly its own pending wake-ups |
| Trigger.Listener.Detach | custom_components/lupt/trigger.py:79-84 | the held wake-up is withdrawn and the handle forgotten, leaving the listener nothing pending; with no handle the call of `None` fails and nothing changes |
| Trigger.Listener.HandleEvent | custom_components/lupt/trigger.py:107-113 | the handle is cleared, a new wake-up armed at the next fire instant, then the job runs once; with nothing left pending again exactly one wake-up is held; if re-arming fails the job does not run |
| Fixtures.CalculateNextTimeExamples | tests/test_trigger.py:29-77 | the six next times of the test: Zuhr at 11:55, 12:25 with +30 min, 11:25 and the next day's 11:24 with -30 min, Sunrise at ±1 day landing on the following occurrence |
| Fixtures.ZawaalExample | custom_components/lupt/__init__.py:220-226 | with a 10-minute window, Sunrise 05:58 and Zuhr 11:55: Duha with wake-up 11:45 at 10:50, 10:55 and 11:44; Zawaal until 11:55 at 11:45 |
| Fixtures.RolloverExample | custom_components/lupt/__init__.py:187-192 | on 2 October (Maghrib 17:39) the at-Maghrib date moves from the 2nd to the 3rd at Maghrib; the at-midnight one stays the 2nd until midnight; the looked-up dates are 25 and 26 Safar 1443 |
| Fixtures.TrackEventExample | tests/test_trigger.py:89-128 | a Sunrise listener and one 30 minutes early, attached at 05:00, each run once by 06:00 and nothing is pending after both detach |

## Left out

- Home Assistant plumbing is not modelled: `async_write_ha_state`, `async_add_executor_job`, `HassJob`, `async_run_hass_job` and the entity's properties. The job is recorded as the payload it runs with.
- Concurrency and async scheduling are not modelled: each handler runs to completion as one step, and the host fires wake-ups one at a time (`Fixtures.FireIfDue`).
- Logging is not modelled.
- The clock is a parameter: `dt_util.utcnow()` and `dt_util.now()` are the `now` argument of each method.
- Time zones and daylight saving are left out: local time is UTC. The test timetable's British Summer Time instants are converted to UTC.
- `isoformat` text is left out: instants and dates are published as `Moment`/`Date` values.
- The timetable library is replaced by the query stand-in of `Timetables`. This covers `init_timetable`, `refresh_timetable_by_name`, `get_info`, per-day rows and HTML scraping. A fetch or cache load is given as its result (`None` when it raises).
- `perform_replace_strings` is an arbitrary function `rewrite` given to the constructor.
- NextTimesEffectWrites: when two tracked events share a display key, the source's last write under that key wins; the model then states only that the key holds one of those events' next occurrences, not which.
- Published (and through it PublishedAfterLoop, the KeepsPublished, StepArms and Serves lemmas, TimetableStepServes and InitStepServes): each tracked event's `next_` attribute is stated to hold that event's own next occurrence only when no two of the tracked events and Maghrib share a display key; otherwise only that it holds an instant after `now`, since the last writer under a shared key decides.
- KeyNamesDistinct holds for the four statistics names as written here; their real values come from the timetable library's key enumeration, which is not part of this model.
- Labels.Lower: only ASCII capitals are lower-cased; Python's `lower()` also folds other scripts.
- The listener's cached timetable is not looked up in `hass.data`. It is an explicit `Option<Timetable>` parameter, because nothing in the integration entity writes that key.
- The listener's wake-up target is identified by an explicit listener id.
- The trigger schema (`TRIGGER_SCHEMA`) is not modelled. A `TriggerConfig` is a validated configuration with the offset already defaulted to zero; offsets are whole minutes.
- config_flow.py and const.py's schema are not modelled. `zawaal_mins` is a `nat`.
- Double detach: this model follows the code, where `async_detach` calls the handle unconditionally. A second detach therefore calls `None` and raises (`Trigger.Listener.Detach` returns `Fail(HandleNotCallable)`); it is not a no-op.
- The Zawaal window: `Fixtures.ZawaalExample` follows the code, where Zawaal starts `zawaal_mins` before the next event. Duha lasts until then.
