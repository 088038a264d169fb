/** The sleep-tracking lifecycle (hooks/useSleepTracking.ts): four state
    fields and the start, stop, toggle and load operations, each an ordered
    sequence of store calls followed by field updates. The clock, the random
    awakening count and the session id are parameters. */
module SleepTracking {
  import opened Wrappers
  import opened SleepStorage

  /** The four state fields of the hook. */
  datatype TrackerState = TrackerState(
    currentSession: Option<SleepSession>,
    lastNightSession: Option<SleepSession>,
    isSleeping: bool,
    isLoading: bool)

  /** The state before anything is loaded. */
  const Initial: TrackerState := TrackerState(None, None, false, true)

  /** "Sleeping" exactly when a session is open in memory. */
  predicate Synced(st: TrackerState) {
    st.isSleeping <==> st.currentSession.Some?
  }

  /** An open session in memory is also the one persisted in the current slot. */
  predicate Persisted(st: TrackerState, slots: map<Key, Entry>) {
    st.currentSession.Some? ==>
      CurrentSessionKey in slots && slots[CurrentSessionKey] == SessionEntry(st.currentSession.value)
  }

  /** The state fields and store slots after an operation, and its result. */
  datatype Step<+T> = Step(state: TrackerState, slots: map<Key, Entry>, result: T)

  /** The session startSleep builds: only an id and a start time. */
  function OpenSession(id: string, now: Timestamp): (s: SleepSession)
    ensures s.id == id && s.startTime == now
    ensures s.endTime.None? && s.duration.None? && s.score.None?
    ensures s.deepSleep.None? && s.lightSleep.None? && s.awakenings.None? && s.notes.None?
  {
    SleepSession(id, now, None, None, None, None, None, None, None)
  }

  /** The record stopSleep produces from the open session: the open session's
      fields, the end time, the measured fields, and the score of the result. */
  function CompleteSession(open: SleepSession, endTime: Timestamp, awakenings: int): (c: SleepSession)
    ensures c.id == open.id && c.startTime == open.startTime && c.notes == open.notes
    ensures c.endTime == Some(endTime)
    ensures c.duration.Some? && c.deepSleep.Some? && c.lightSleep.Some? && c.score.Some?
    ensures c.duration.value * MsPerMinute <= endTime - open.startTime < (c.duration.value + 1) * MsPerMinute
    ensures 4 * c.deepSleep.value <= c.duration.value < 4 * c.deepSleep.value + 4
    ensures 100 * c.lightSleep.value <= 65 * c.duration.value < 100 * c.lightSleep.value + 100
    ensures endTime >= open.startTime ==>
              0 <= c.deepSleep.value && 0 <= c.lightSleep.value
              && c.deepSleep.value + c.lightSleep.value <= c.duration.value
    ensures c.awakenings == Some(awakenings)
    ensures c.score == Some(SleepScore(c)) && 0 <= c.score.value <= 100
  {
    var d := CalculateSleepDuration(open.startTime, endTime);
    var measured := open.(endTime := Some(endTime), duration := Some(d),
                          deepSleep := Some(DeepSleepMinutes(d)), lightSleep := Some(LightSleepMinutes(d)),
                          awakenings := Some(awakenings));
    var c := measured.(score := Some(SleepScore(measured)));
    ScoreReadsOnlyItsInputs(measured, c);
    StagesWithinDuration(d);
    c
  }

  // ---------------------------------------------------------------------------
  // The operations as transitions of (state fields, store slots)
  // ---------------------------------------------------------------------------

  /** startSleep: save the new session to the current slot; only when that
      succeeds, open it in memory. */
  function StartStep(st: TrackerState, slots: map<Key, Entry>, unwritable: set<Key>,
                     id: string, now: Timestamp): (r: Step<Result<SleepSession, StorageError>>)
    ensures r.result.Success? <==> CurrentSessionKey !in unwritable
    ensures r.result.Success? ==> r.result.value == OpenSession(id, now) && r.state.isSleeping
                                  && r.state.currentSession == Some(r.result.value)
                                  && r.slots == slots[CurrentSessionKey := SessionEntry(r.result.value)]
    ensures r.result.Failure? ==> r.state == st && r.slots == slots
  {
    var session := OpenSession(id, now);
    var saved := Write(slots, unwritable, CurrentSessionKey, SessionEntry(session));
    if saved.0.Err? then Step(st, slots, Failure(saved.0.error))
    else Step(st.(currentSession := Some(session), isSleeping := true), saved.1, Success(session))
  }

  /** stopSleep: with nothing open, return null; otherwise complete the
      session, append it to the history, clear the current slot, then close
      it in memory. A store error stops the sequence where it happens. */
  function StopStep(st: TrackerState, slots: map<Key, Entry>, unreadable: set<Key>, unwritable: set<Key>,
                    now: Timestamp, awakenings: int): (r: Step<Result<Option<SleepSession>, StorageError>>)
    ensures st.currentSession.None? ==> r == Step(st, slots, Success(None))
    ensures r.result.Failure? ==> r.state == st
    ensures r.result.Success? && st.currentSession.Some? ==>
              && r.result.value.Some? && r.result.value.value.endTime == Some(now)
              && r.state == TrackerState(None, r.result.value, false, st.isLoading)
              && CurrentSessionKey !in r.slots
  {
    if st.currentSession.None? then Step(st, slots, Success(None))
    else
      var completed := CompleteSession(st.currentSession.value, now, awakenings);
      var added := Write(slots, unwritable, SleepHistoryKey,
                         HistoryEntry(HistoryAfterAdd(slots, unreadable, completed, now)));
      if added.0.Err? then Step(st, added.1, Failure(added.0.error))
      else
        var cleared := Remove(added.1, unwritable, CurrentSessionKey);
        if cleared.0.Err? then Step(st, cleared.1, Failure(cleared.0.error))
        else Step(st.(currentSession := None, isSleeping := false, lastNightSession := Some(completed)),
                  cleared.1, Success(Some(completed)))
  }

  /** toggleSleep: stop when sleeping, start otherwise. */
  function ToggleStep(st: TrackerState, slots: map<Key, Entry>, unreadable: set<Key>, unwritable: set<Key>,
                      id: string, now: Timestamp, awakenings: int): (r: Step<Result<Option<SleepSession>, StorageError>>)
    ensures st.isSleeping ==> r == StopStep(st, slots, unreadable, unwritable, now, awakenings)
    ensures !st.isSleeping ==>
              var started := StartStep(st, slots, unwritable, id, now);
              && r.state == started.state && r.slots == started.slots
              && (r.result.Success? <==> started.result.Success?)
              && (r.result.Success? ==> r.result.value == Some(OpenSession(id, now)))
  {
    if st.isSleeping then StopStep(st, slots, unreadable, unwritable, now, awakenings)
    else
      var started := StartStep(st, slots, unwritable, id, now);
      Step(started.state, started.slots,
           if started.result.Success? then Success(Some(started.result.value)) else Failure(started.result.error))
  }

  /** loadSleepData: open the stored current session in memory if there is
      one, take the last completed night if there is one, and finish loading.
      Both reads fail soft, so nothing here throws. */
  function LoadStep(st: TrackerState, slots: map<Key, Entry>, unreadable: set<Key>): (r: TrackerState)
    ensures !r.isLoading
    ensures ReadCurrent(slots, unreadable).Some? ==>
              r.currentSession == ReadCurrent(slots, unreadable) && r.isSleeping
    ensures ReadCurrent(slots, unreadable).None? ==>
              r.currentSession == st.currentSession && r.isSleeping == st.isSleeping
    ensures var h := ReadHistory(slots, unreadable);
            (exists i :: 0 <= i < |h| && h[i].endTime.Some?) ==>
              r.lastNightSession == FirstCompleted(h) && r.lastNightSession.value in h && r.lastNightSession.value.endTime.Some?
    ensures var h := ReadHistory(slots, unreadable);
            (forall i :: 0 <= i < |h| ==> h[i].endTime.None?) ==> r.lastNightSession == st.lastNightSession
  {
    var current := ReadCurrent(slots, unreadable);
    var st1 := if current.Some? then st.(currentSession := current, isSleeping := true) else st;
    var lastNight := FirstCompleted(ReadHistory(slots, unreadable));
    var st2 := if lastNight.Some? then st1.(lastNightSession := lastNight) else st1;
    st2.(isLoading := false)
  }

  // ---------------------------------------------------------------------------
  // Properties of the transitions
  // ---------------------------------------------------------------------------

  /** Start opens exactly the new session when the current slot can be
      written, and otherwise changes nothing. */
  lemma StartFacts(st: TrackerState, slots: map<Key, Entry>, unwritable: set<Key>, id: string, now: Timestamp)
    ensures var s := StartStep(st, slots, unwritable, id, now);
            && (s.result.Success? <==> CurrentSessionKey !in unwritable)
            && (s.result.Success? ==>
                  && s.result.value == OpenSession(id, now)
                  && s.state.currentSession == Some(OpenSession(id, now)) && s.state.isSleeping
                  && s.state.lastNightSession == st.lastNightSession && s.state.isLoading == st.isLoading
                  && s.slots == slots[CurrentSessionKey := SessionEntry(OpenSession(id, now))])
            && (s.result.Failure? ==> s.state == st && s.slots == slots)
  {
  }

  /** Stop with nothing open returns null and touches neither the store nor
      any state field. */
  lemma StopWithNothingOpen(st: TrackerState, slots: map<Key, Entry>, unreadable: set<Key>, unwritable: set<Key>,
                            now: Timestamp, awakenings: int)
    requires st.currentSession.None?
    ensures StopStep(st, slots, unreadable, unwritable, now, awakenings) == Step(st, slots, Success(None))
  {
  }

  /** A stop that throws leaves every state field and the current slot as
      they were; when it is the history append that throws (it runs first),
      the store is entirely unchanged. */
  lemma StopFailureChangesNoState(st: TrackerState, slots: map<Key, Entry>, unreadable: set<Key>, unwritable: set<Key>,
                                  now: Timestamp, awakenings: int)
    ensures var s := StopStep(st, slots, unreadable, unwritable, now, awakenings);
            && (s.result.Failure? ==> s.state == st)
            && (s.result.Failure? ==> (CurrentSessionKey in s.slots <==> CurrentSessionKey in slots))
            && (s.result.Failure? && CurrentSessionKey in slots ==> s.slots[CurrentSessionKey] == slots[CurrentSessionKey])
            && (s.result.Failure? <==> st.currentSession.Some? && (SleepHistoryKey in unwritable || CurrentSessionKey in unwritable))
            && (st.currentSession.Some? && SleepHistoryKey in unwritable ==>
                  s.slots == slots && s.result == Failure(WriteRejected(SleepHistoryKey)))
  {
  }

  /** A stop that succeeds closes the session in memory, makes it the last
      night, writes the history with the completed session put first (when
      inside the retention window), removes the current slot and keeps the
      settings slot. */
  lemma StopSuccessFacts(st: TrackerState, slots: map<Key, Entry>, unreadable: set<Key>, unwritable: set<Key>,
                         now: Timestamp, awakenings: int)
    requires st.currentSession.Some?
    requires SleepHistoryKey !in unwritable && CurrentSessionKey !in unwritable
    ensures var s := StopStep(st, slots, unreadable, unwritable, now, awakenings);
            var c := CompleteSession(st.currentSession.value, now, awakenings);
            && s.result == Success(Some(c))
            && s.state == TrackerState(None, Some(c), false, st.isLoading)
            && CurrentSessionKey !in s.slots
            && SleepHistoryKey in s.slots
            && s.slots[SleepHistoryKey] == HistoryEntry(HistoryAfterAdd(slots, unreadable, c, now))
            && (SettingsKey in s.slots <==> SettingsKey in slots)
            && (SettingsKey in slots ==> s.slots[SettingsKey] == slots[SettingsKey])
  {
  }

  /** Stopping twice in a row: the second stop is a no-op returning null. */
  lemma StopTwice(st: TrackerState, slots: map<Key, Entry>, unreadable: set<Key>, unwritable: set<Key>,
                  now1: Timestamp, awakenings1: int, now2: Timestamp, awakenings2: int)
    requires StopStep(st, slots, unreadable, unwritable, now1, awakenings1).result.Success?
    ensures var s1 := StopStep(st, slots, unreadable, unwritable, now1, awakenings1);
            StopStep(s1.state, s1.slots, unreadable, unwritable, now2, awakenings2) == Step(s1.state, s1.slots, Success(None))
  {
  }

  /** Start followed by stop at the same instant, with a working store: a
      completed session of 0 minutes (hence no stages and a score of 0) that
      the history now begins with, and an empty current slot. */
  lemma StartThenStopAtOnce(st: TrackerState, slots: map<Key, Entry>, unreadable: set<Key>,
                            id: string, now: Timestamp, awakenings: int)
    ensures var s1 := StartStep(st, slots, {}, id, now);
            var s2 := StopStep(s1.state, s1.slots, unreadable, {}, now, awakenings);
            && s2.result.Success? && s2.result.value.Some?
            && var c := s2.result.value.value;
            && c.id == id && c.startTime == now && c.endTime == Some(now)
            && c.duration == Some(0) && c.deepSleep == Some(0) && c.lightSleep == Some(0)
            && c.awakenings == Some(awakenings) && c.score == Some(0)
            && CurrentSessionKey !in s2.slots
            && SleepHistoryKey in s2.slots && s2.slots[SleepHistoryKey].HistoryEntry?
            && |s2.slots[SleepHistoryKey].sessions| > 0 && s2.slots[SleepHistoryKey].sessions[0] == c
            && s2.state.currentSession.None? && !s2.state.isSleeping && s2.state.lastNightSession == Some(c)
  {
    var s1 := StartStep(st, slots, {}, id, now);
    var c := CompleteSession(OpenSession(id, now), now, awakenings);
    HistoryAfterAddFacts(s1.slots, unreadable, c, now);
  }

  /** Start keeps "sleeping exactly when a session is open in memory" and
      "an open session in memory is the persisted one". */
  lemma StartKeepsInvariants(st: TrackerState, slots: map<Key, Entry>, unwritable: set<Key>, id: string, now: Timestamp)
    requires Synced(st) && Persisted(st, slots)
    ensures var s := StartStep(st, slots, unwritable, id, now); Synced(s.state) && Persisted(s.state, s.slots)
  {
  }

  /** Stop keeps both invariants: a failure changes no field and not the
      current slot; a success closes the session and removes the slot. */
  lemma StopKeepsInvariants(st: TrackerState, slots: map<Key, Entry>, unreadable: set<Key>, unwritable: set<Key>,
                            now: Timestamp, awakenings: int)
    requires Synced(st) && Persisted(st, slots)
    ensures var s := StopStep(st, slots, unreadable, unwritable, now, awakenings); Synced(s.state) && Persisted(s.state, s.slots)
  {
    if st.currentSession.Some? {
      StopFailureChangesNoState(st, slots, unreadable, unwritable, now, awakenings);
    }
  }

  /** Toggle keeps both invariants, being a start or a stop. */
  lemma ToggleKeepsInvariants(st: TrackerState, slots: map<Key, Entry>, unreadable: set<Key>, unwritable: set<Key>,
                              id: string, now: Timestamp, awakenings: int)
    requires Synced(st) && Persisted(st, slots)
    ensures var s := ToggleStep(st, slots, unreadable, unwritable, id, now, awakenings); Synced(s.state) && Persisted(s.state, s.slots)
  {
    if st.isSleeping {
      StopKeepsInvariants(st, slots, unreadable, unwritable, now, awakenings);
    } else {
      StartKeepsInvariants(st, slots, unwritable, id, now);
    }
  }

  /** Load keeps both invariants: it opens in memory only the session it
      read from the current slot. */
  lemma LoadKeepsInvariants(st: TrackerState, slots: map<Key, Entry>, unreadable: set<Key>)
    requires Synced(st) && Persisted(st, slots)
    ensures Synced(LoadStep(st, slots, unreadable)) && Persisted(LoadStep(st, slots, unreadable), slots)
  {
  }

  // ---------------------------------------------------------------------------
  // Any sequence of calls from the initial state
  // ---------------------------------------------------------------------------

  datatype Call =
    | StartCall(id: string, now: Timestamp)
    | StopCall(now: Timestamp, awakenings: int)
    | ToggleCall(id: string, now: Timestamp, awakenings: int)
    | LoadCall

  /** A call, made while the given slots reject reads and writes. */
  datatype Request = Request(call: Call, unreadable: set<Key>, unwritable: set<Key>)

  function Apply(st: TrackerState, slots: map<Key, Entry>, r: Request): (TrackerState, map<Key, Entry>) {
    match r.call
    case StartCall(id, now) =>
      var s := StartStep(st, slots, r.unwritable, id, now); (s.state, s.slots)
    case StopCall(now, awakenings) =>
      var s := StopStep(st, slots, r.unreadable, r.unwritable, now, awakenings); (s.state, s.slots)
    case ToggleCall(id, now, awakenings) =>
      var s := ToggleStep(st, slots, r.unreadable, r.unwritable, id, now, awakenings); (s.state, s.slots)
    case LoadCall =>
      (LoadStep(st, slots, r.unreadable), slots)
  }

  function Run(st: TrackerState, slots: map<Key, Entry>, requests: seq<Request>): (TrackerState, map<Key, Entry>)
    decreases |requests|
  {
    if requests == [] then (st, slots)
    else
      var next := Apply(st, slots, requests[0]);
      Run(next.0, next.1, requests[1..])
  }

  /** From the initial state, over any store contents and any sequence of
      calls and store failures, the tracker is sleeping exactly when a session
      is open in memory, and that session is the one persisted. */
  lemma {:induction false} InvariantsFromInitial(slots: map<Key, Entry>, requests: seq<Request>)
    ensures Synced(Run(Initial, slots, requests).0)
    ensures Persisted(Run(Initial, slots, requests).0, Run(Initial, slots, requests).1)
  {
    RunKeepsInvariants(Initial, slots, requests);
  }

  lemma {:induction false} RunKeepsInvariants(st: TrackerState, slots: map<Key, Entry>, requests: seq<Request>)
    requires Synced(st) && Persisted(st, slots)
    ensures Synced(Run(st, slots, requests).0) && Persisted(Run(st, slots, requests).0, Run(st, slots, requests).1)
    decreases |requests|
  {
    if requests != [] {
      var r := requests[0];
      match r.call {
        case StartCall(id, now) => StartKeepsInvariants(st, slots, r.unwritable, id, now);
        case StopCall(now, a) => StopKeepsInvariants(st, slots, r.unreadable, r.unwritable, now, a);
        case ToggleCall(id, now, a) => ToggleKeepsInvariants(st, slots, r.unreadable, r.unwritable, id, now, a);
        case LoadCall => LoadKeepsInvariants(st, slots, r.unreadable);
      }
      var next := Apply(st, slots, r);
      RunKeepsInvariants(next.0, next.1, requests[1..]);
    }
  }

  // ---------------------------------------------------------------------------
  // The hook as an object
  // ---------------------------------------------------------------------------

  /** The hook's state holder, bound to one store. */
  class SleepTracker {
    const store: SessionStore
    var currentSession: Option<SleepSession>
    var lastNightSession: Option<SleepSession>
    var isSleeping: bool
    var isLoading: bool

    function State(): TrackerState
      reads this
    {
      TrackerState(currentSession, lastNightSession, isSleeping, isLoading)
    }

    ghost predicate Valid()
      reads this, store
    {
      store.Valid()
    }

    constructor (store: SessionStore)
      requires store.Valid()
      ensures Valid() && this.store == store
      ensures State() == Initial
    {
      this.store := store;
      currentSession := None;
      lastNightSession := None;
      isLoading := true;
      isSleeping := false;
    }

    method LoadSleepData()
      requires Valid()
      modifies this
      ensures Valid()
      ensures State() == LoadStep(old(State()), store.slots, store.unreadable)
      ensures !isLoading
      ensures old(Synced(State())) ==> Synced(State())
    {
      isLoading := true;

      var current := store.GetCurrentSession();
      if current.Some? {
        currentSession := current;
        isSleeping := true;
      }

      var lastNight := store.GetLastNightSession();
      if lastNight.Some? {
        lastNightSession := lastNight;
      }

      isLoading := false;
    }

    method StartSleep(id: string, now: Timestamp) returns (r: Result<SleepSession, StorageError>)
      requires Valid()
      modifies this, store`slots
      ensures Valid()
      ensures Step(State(), store.slots, r) == StartStep(old(State()), old(store.slots), store.unwritable, id, now)
      ensures r.Success? ==> currentSession == Some(r.value) && isSleeping
      ensures r.Failure? ==> unchanged(this) && store.slots == old(store.slots)
    {
      var newSession := OpenSession(id, now);
      var saved := store.SaveCurrentSession(newSession);
      if saved.Err? {
        return Failure(saved.error);
      }
      currentSession := Some(newSession);
      isSleeping := true;
      r := Success(newSession);
    }

    method StopSleep(now: Timestamp, awakenings: int) returns (r: Result<Option<SleepSession>, StorageError>)
      requires Valid()
      requires 1 <= awakenings <= 3
      modifies this, store`slots
      ensures Valid()
      ensures Step(State(), store.slots, r)
              == StopStep(old(State()), old(store.slots), store.unreadable, store.unwritable, now, awakenings)
      ensures old(currentSession).None? ==> r == Success(None) && unchanged(this) && store.slots == old(store.slots)
      ensures r.Failure? ==> unchanged(this)
      ensures r.Success? && r.value.Some? ==>
                currentSession.None? && !isSleeping && lastNightSession == r.value
                && 1 <= r.value.value.awakenings.value <= 3
    {
      if currentSession.None? {
        return Success(None);
      }
      var open := currentSession.value;
      var endTime := now;
      var duration := CalculateSleepDuration(open.startTime, endTime);
      var completed := open.(endTime := Some(endTime), duration := Some(duration),
                             deepSleep := Some(DeepSleepMinutes(duration)),
                             lightSleep := Some(LightSleepMinutes(duration)),
                             awakenings := Some(awakenings));
      var score := CalculateSleepScore(completed);
      completed := completed.(score := Some(score));
      assert completed == CompleteSession(open, now, awakenings);

      var added := store.AddSessionToHistory(completed, now);
      if added.Err? {
        return Failure(added.error);
      }

      var cleared := store.ClearCurrentSession();
      if cleared.Err? {
        return Failure(cleared.error);
      }

      currentSession := None;
      isSleeping := false;
      lastNightSession := Some(completed);
      r := Success(Some(completed));
    }

    method ToggleSleep(id: string, now: Timestamp, awakenings: int) returns (r: Result<Option<SleepSession>, StorageError>)
      requires Valid()
      requires 1 <= awakenings <= 3
      modifies this, store`slots
      ensures Valid()
      ensures Step(State(), store.slots, r)
              == ToggleStep(old(State()), old(store.slots), store.unreadable, store.unwritable, id, now, awakenings)
    {
      if isSleeping {
        r := StopSleep(now, awakenings);
      } else {
        var started := StartSleep(id, now);
        r := if started.Success? then Success(Some(started.value)) else Failure(started.error);
      }
    }
  }
}
