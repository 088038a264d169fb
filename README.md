# Sleep tracker: session store, scoring and tracking lifecycle

A Dafny model of the core of a small sleep-tracking app. The user marks the
start and the end of a night. The app keeps at most one open ("current")
session and a newest-first history of completed sessions in a key-value store.
It derives a duration, a deep/light sleep split, an awakening count and a
0–100 sleep score for each completed session.

- `wrappers.dfy` (module `Wrappers`): `Option` (the source's `null` and
  optional fields) and `Result` (a value or a thrown error).
- `number_text.dfy` (module `NumberText`): decimal rendering of integers, as a
  template literal renders them, and a parser. The two are proved inverse.
- `sleep_storage.dfy` (module `SleepStorage`, from `utils/sleepStorage.ts`):
  - the `SleepSession` and `SleepSettings` records;
  - the store as a class `SessionStore` whose `slots` map holds the three
    keys (current session, history, settings), plus two fault sets: slots
    whose reads are rejected and slots whose writes are rejected. Text that
    does not parse as JSON is the `Unparsable` entry. Reads fail soft; writes
    and removals return `Err` where the source rethrows;
  - the 90-day retention filter, the "last night" lookup, duration and its
    text, and the score. The score exists twice. `SleepScore` is a
    specification function that compares exact reals, as the source's
    comparisons read. `CalculateSleepScore` is the source's if-chain
    accumulating into a local score, deciding the percentage bands on
    integers by cross-multiplying. The method is proved equal to the function.
- `sleep_tracking.dfy` (module `SleepTracking`, from `hooks/useSleepTracking.ts`):
  - the hook as a class `SleepTracker` with the four fields `currentSession`,
    `lastNightSession`, `isSleeping` and `isLoading`, bound to one store;
  - each method runs the source's store calls in the source's order;
  - each method is proved equal to a pure transition function (`StartStep`,
    `StopStep`, `ToggleStep`, `LoadStep`) over the fields and the store slots;
  - lemmas about those transitions state what the hook promises, including
    the invariant "sleeping exactly when a session is open, and that session
    is the persisted one". That invariant is proved for every sequence of
    calls and store failures starting from the initial state.

Timestamps are integer milliseconds. The clock (`now`), the random awakening
count (`awakenings`, 1 to 3) and the generated session `id` are parameters.

Behaviour of the code worth knowing:

- A session of 0 minutes scores 0, not the 10 of the duration bands' else
  branch, because `!session.duration` is true for 0 (`ScoreExamples`, `StartThenStopAtOnce`).
- The `Math.min(100, …)` cap never binds. The largest possible sum is
  40 + 30 + 30 = 100 (`ScoreIsSumOfParts`).
- `formatDuration` mixes `Math.floor` with JavaScript's truncating `%`. For a
  negative number of minutes that is not a multiple of 60, hours·60 + minutes
  is the input minus 60: −30 renders as "-1h -30m" (`DurationParts`).
- `loadSleepData` never clears `currentSession` or `lastNightSession`. It only
  sets them when the store has a value.
- A second `startSleep` while sleeping overwrites the open session, in memory
  and in the store. The model keeps that behaviour.

## Model

| member | source | states |
|---|---|---|
| SleepStorage.SessionStore.SaveCurrentSession | utils/sleepStorage.ts:29-37 | succeeds exactly when the current slot is writable, and then that slot holds the session; otherwise it returns the error and the store is unchanged |
| SleepStorage.SessionStore.GetCurrentSession | utils/sleepStorage.ts:39-52 | returns the stored session exactly when the slot is readable and holds a parsed session; an absent slot, a rejected read and unparsable text all give null |
| SleepStorage.SessionStore.ClearCurrentSession | utils/sleepStorage.ts:54-62 | removes the current slot (an absent slot is fine) unless removal is rejected; a rejection leaves the store unchanged and is returned |
| SleepStorage.SessionStore.SaveSleepHistory | utils/sleepStorage.ts:65-73 | overwrites the history slot with the given sequence exactly when it is writable; otherwise it returns the error and the store is unchanged |
| SleepStorage.SessionStore.GetSleepHistory | utils/sleepStorage.ts:75-88 | returns the stored history when readable and parsed, and [] when the slot is absent, the read is rejected or the text does not parse |
| SleepStorage.SessionStore.AddSessionToHistory | utils/sleepStorage.ts:90-104 | writes KeepRecent([session] + stored history, now − 90 days) to the history slot; a rejected write returns the error and leaves the store unchanged |
| SleepStorage.KeepRecent | utils/sleepStorage.ts:95-97 | every kept entry started after the cutoff, and an entry is kept exactly when it is in the input and started after the cutoff |
| SleepStorage.KeepRecentCounts | utils/sleepStorage.ts:95-97 | the filter keeps every occurrence of an entry that started after the cutoff and no occurrence of any other (as multisets) |
| SleepStorage.KeepRecentIsSubsequence | utils/sleepStorage.ts:97 | the retention filter keeps the relative order of the entries it keeps |
| SleepStorage.HistoryAfterAdd | utils/sleepStorage.ts:90-98 | the history addSessionToHistory writes: every entry lies inside the 90-day window, and it starts with the new session when that session is inside the window; HistoryAfterAddFacts states the rest |
| SleepStorage.HistoryAfterAddFacts | utils/sleepStorage.ts:90-98 | the written history lies inside the 90-day window, keeps every old in-window entry, and starts with the new session exactly when its startTime is inside the window (otherwise it is the filtered old history); order is preserved, and each in-window entry of [session] + old history keeps its number of occurrences |
| SleepStorage.SessionStore.GetLastNightSession | utils/sleepStorage.ts:106-122 | returns the first completed entry of the fail-soft history, or null; the result is an entry of the history that has an endTime |
| SleepStorage.Completed | utils/sleepStorage.ts:113 | keeps exactly the history entries that have an endTime |
| SleepStorage.CompletedCounts | utils/sleepStorage.ts:113 | the filter keeps every occurrence of a completed entry and no occurrence of any other (as multisets) |
| SleepStorage.CompletedIsSubsequence | utils/sleepStorage.ts:113 | the completed entries keep their relative order |
| SleepStorage.FirstCompleted | utils/sleepStorage.ts:106-122 | null exactly when no history entry has an endTime; otherwise an entry of the history that has one (FirstCompletedIsFirst: the first such) |
| SleepStorage.FirstCompletedIsFirst | utils/sleepStorage.ts:106-117 | null exactly when no entry has an endTime; otherwise the result is the entry at some index k with an endTime and every entry before k lacks one |
| SleepStorage.SessionStore.SaveSettings | utils/sleepStorage.ts:125-133 | overwrites the settings slot exactly when writable; otherwise it returns the error and the store is unchanged |
| SleepStorage.SessionStore.GetSettings | utils/sleepStorage.ts:135-155 | returns the stored settings when readable and parsed, and the defaults ("11:00 PM", "7:00 AM", 8) otherwise |
| SleepStorage.CalculateSleepDuration | utils/sleepStorage.ts:158-163 | the result is ⌊(end − start) / 60000⌋ (r·60000 ≤ end − start < (r+1)·60000), and it is non-negative when end ≥ start |
| SleepStorage.DurationParts | utils/sleepStorage.ts:165-169 | for minutes ≥ 0, hours·60 + mins = minutes with 0 ≤ mins < 60; for negative minutes, mins is in (−60, 0] and hours·60 + mins is the input, or the input − 60 when mins ≠ 0 |
| SleepStorage.FormatDuration | utils/sleepStorage.ts:165-169 | for minutes ≥ 0 the rendered text parses back to the same number of minutes |
| SleepStorage.ParseRendered | utils/sleepStorage.ts:168 | "{h}h {m}m" written with decimal numerals reads back as h·60 + m |
| SleepStorage.FormatDurationRoundTrip | utils/sleepStorage.ts:165-169 | for minutes ≥ 0 the text is "{⌊d/60⌋}h {d mod 60}m" and parsing it back yields the same minutes |
| SleepStorage.DurationPoints | utils/sleepStorage.ts:179-189 | the hours comparisons are the minute bands 420–540 → 40, 360–419 → 30, 300–359 → 20, everything else (negatives, above 540) → 10 |
| SleepStorage.CrossMultiply | utils/sleepStorage.ts:193-196 | comparing deep/duration·100 with k is comparing 100·deep with k·duration, flipped for a negative duration |
| SleepStorage.PercentAtLeast | utils/sleepStorage.ts:194-196 | the integer test agrees with "percentage ≥ k" on exact reals |
| SleepStorage.PercentAtMost | utils/sleepStorage.ts:194 | the integer test agrees with "percentage ≤ k" on exact reals |
| SleepStorage.DeepSleepPoints | utils/sleepStorage.ts:191-201 | 30 when 20 ≤ percentage ≤ 25, 20 when 15 ≤ percentage < 20, else 10, written out by cross-multiplication for positive and for negative durations |
| SleepStorage.AwakeningPoints | utils/sleepStorage.ts:203-216 | the ladder's points are one of 30, 25, 20, 10, 5 |
| SleepStorage.AwakeningPointsMonotone | utils/sleepStorage.ts:203-216 | for non-negative counts, fewer awakenings never score less |
| SleepStorage.SleepScore | utils/sleepStorage.ts:171-218 | 0 ≤ score ≤ 100; the score is 0 exactly when the duration is absent or 0, and at least 10 otherwise |
| SleepStorage.ScoreIsSumOfParts | utils/sleepStorage.ts:177-218 | with a nonzero duration the score is the duration points plus the deep-sleep points (only when deepSleep is present and nonzero) plus the awakening points (only when awakenings is present); the cap never binds |
| SleepStorage.ScoreReadsOnlyItsInputs | utils/sleepStorage.ts:171-218 | the score depends only on duration, deepSleep and awakenings |
| SleepStorage.CalculateSleepScore | utils/sleepStorage.ts:171-219 | the imperative if-chains with integer percentage tests compute exactly SleepScore, a value in 0..100 |
| SleepStorage.ScoreExamples | utils/sleepStorage.ts:171-218 | 480 min with 120 deep and 0 awakenings scores 100; 360 min alone scores 30; 0 min scores 0 |
| SleepStorage.DeepSleepMinutes | hooks/useSleepTracking.ts:86 | the result is ⌊duration/4⌋ (= ⌊duration·0.25⌋) |
| SleepStorage.LightSleepMinutes | hooks/useSleepTracking.ts:87 | the result is ⌊duration·65/100⌋ |
| SleepStorage.StagesWithinDuration | hooks/useSleepTracking.ts:86-87 | for duration ≥ 0 both stages are non-negative and deep + light ≤ duration |
| SleepTracking.OpenSession | hooks/useSleepTracking.ts:56-59 | the new session has the given id and startTime = now; every other field is absent |
| SleepTracking.CompleteSession | hooks/useSleepTracking.ts:81-100 | keeps id, startTime and notes; sets endTime; the duration is ⌊(end − start)/60000⌋; deep is ⌊d/4⌋, light is ⌊0.65·d⌋ and they fit in d when d ≥ 0; it records the awakenings; its score is SleepScore of the completed record itself, in 0..100 |
| SleepTracking.StartStep | hooks/useSleepTracking.ts:53-71 | start succeeds exactly when the current slot is writable; success returns the new open session, stores it in the current slot and opens it in memory; failure changes neither the state nor the store (StartFacts adds that the other fields are kept) |
| SleepTracking.StopStep | hooks/useSleepTracking.ts:73-119 | with nothing open: null, no change; a failure changes no state field; a success with a session open returns the completed session (ended now), clears currentSession and isSleeping, sets lastNightSession to it and removes the current slot |
| SleepTracking.ToggleStep | hooks/useSleepTracking.ts:121-128 | when sleeping it is exactly the stop; otherwise it has the start's state, store and outcome, returning the new open session on success |
| SleepTracking.LoadStep | hooks/useSleepTracking.ts:27-51 | ends loading; a stored readable current session is opened (isSleeping true), otherwise currentSession and isSleeping are kept; lastNightSession becomes the first completed history entry when there is one and is kept otherwise |
| SleepTracking.StartFacts | hooks/useSleepTracking.ts:53-71 | start succeeds exactly when the current slot is writable; then it saves and opens only the new session; on failure the state and the store are unchanged |
| SleepTracking.StopWithNothingOpen | hooks/useSleepTracking.ts:75-78 | stop with no current session returns null and changes neither the state nor the store |
| SleepTracking.StopFailureChangesNoState | hooks/useSleepTracking.ts:102-118 | stop fails exactly when a session is open and the history or the current slot is unwritable; a failing stop changes no state field and not the current slot; when the history append fails, which happens first, the store is entirely unchanged |
| SleepTracking.StopSuccessFacts | hooks/useSleepTracking.ts:102-114 | a successful stop returns the completed session; currentSession becomes null, isSleeping false and lastNightSession the completed session; the history slot holds the appended history, the current slot is removed and the settings slot is untouched |
| SleepTracking.StopTwice | hooks/useSleepTracking.ts:73-78 | after a successful stop, a second stop is a no-op returning null |
| SleepTracking.StartThenStopAtOnce | hooks/useSleepTracking.ts:53-114 | start then stop at the same instant on a store that accepts writes (reads may fail) gives a completed session of 0 minutes: no stages, score 0; the history now begins with it, the current slot is empty and the state is not sleeping |
| SleepTracking.StartKeepsInvariants | hooks/useSleepTracking.ts:61-63 | start keeps isSleeping ⇔ currentSession ≠ null, and an open in-memory session stays the one persisted in the current slot |
| SleepTracking.StopKeepsInvariants | hooks/useSleepTracking.ts:103-111 | stop keeps both invariants |
| SleepTracking.ToggleKeepsInvariants | hooks/useSleepTracking.ts:121-128 | toggle keeps both invariants |
| SleepTracking.LoadKeepsInvariants | hooks/useSleepTracking.ts:33-45 | load keeps both invariants |
| SleepTracking.RunKeepsInvariants | hooks/useSleepTracking.ts:27-128 | both invariants hold after any sequence of calls and store failures that starts from a state satisfying them |
| SleepTracking.InvariantsFromInitial | hooks/useSleepTracking.ts:17-20 | from the initial state (null, null, not sleeping, loading), any sequence of calls and store failures yields a synced state whose open session is persisted |
| SleepTracking.SleepTracker.constructor | hooks/useSleepTracking.ts:17-20 | the four fields start as null, null, not sleeping, loading |
| SleepTracking.SleepTracker.LoadSleepData | hooks/useSleepTracking.ts:27-51 | sets currentSession and isSleeping only when a current session is stored and readable; sets lastNightSession only when the history has a completed entry; always ends with isLoading false; keeps the sync invariant |
| SleepTracking.SleepTracker.StartSleep | hooks/useSleepTracking.ts:53-71 | is the StartStep transition: saves first, then sets currentSession and isSleeping; on failure nothing changes |
| SleepTracking.SleepTracker.StopSleep | hooks/useSleepTracking.ts:73-119 | is the StopStep transition: with nothing open it returns null and changes nothing; it appends to the history, then clears the current slot, then updates the fields; a failure leaves every field unchanged |
| SleepTracking.SleepTracker.ToggleSleep | hooks/useSleepTracking.ts:121-128 | is the ToggleStep transition: stop exactly when isSleeping, start otherwise |

## Left out

- AsyncStorage and JSON: the store is a map from the three keys to decoded
  values. Serialisation is taken to be lossless. A failing `getItem` is a slot
  in `unreadable`; a failing `setItem`/`removeItem` is a slot in `unwritable`;
  text that `JSON.parse` rejects is the `Unparsable` entry. A slot holding
  well-formed JSON of the wrong shape is not modelled: the store keeps each
  slot's kind (`WellShaped`). An empty stored string, which the source treats
  as absent, is not modelled either.
- Dates: ISO 8601 text and `Date` parsing are replaced by integer
  milliseconds. "90 days ago" is the fixed offset now − 7 776 000 000 ms, with
  no calendar or daylight-saving shift. `addSessionToHistory` reads the clock
  again. The model uses the same `now` as the stop that calls it.
- `generateSessionId`, `Date.now` and `Math.random` are parameters: `id`,
  `now` and `awakenings`. The string format of the id is not modelled.
  `StopSleep` and `ToggleSleep` require 1 ≤ awakenings ≤ 3, the range of
  `Math.floor(Math.random() * 3) + 1`.
- Floating point: the model computes `duration * 0.25`, `duration * 0.65` and
  the percentage exactly, as `d·25/100`, `d·65/100` and exact reals. Binary
  rounding of `0.65` or of the division at a band boundary is not modelled.
  Numbers are integers: non-integral durations, awakening counts or
  `sleepGoalHours`, and NaN, are not modelled.
- SleepStorage.AwakeningPoints: only its range is stated in its contract. The
  ladder itself appears only inside `SleepScore` and `CalculateSleepScore`.
- A truthy `endTime` is a present `endTime`. An empty-string `endTime` is not
  modelled.
- React: `useState`, `useEffect`, `useCallback` closures and async scheduling
  are left out. Each operation is a sequential method on one object; a stale
  closure value of `currentSession` is not modelled. The mount-time call of
  `loadSleepData` is left to the caller of the constructor. The catch in
  `loadSleepData` can never fire, since both reads fail soft, so it is not
  modelled.
- Console logging is left out.
- Backend test helpers (fetch/WebSocket plumbing), the empty backend files,
  the screens and the styling are not part of this model.
