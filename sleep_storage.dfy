/** The session store and the scoring utilities of the sleep tracker
    (utils/sleepStorage.ts): the session record, the key-value store with its
    three slots, the 90-day retention of the history, and the arithmetic on
    durations and scores. */
module SleepStorage {
  import opened Wrappers
  import opened NumberText

  // ---------------------------------------------------------------------------
  // Data model
  // ---------------------------------------------------------------------------

  /** A point in time, in integer milliseconds since the epoch (the source keeps
      ISO 8601 strings with millisecond precision and parses them back). */
  type Timestamp = int

  const MsPerMinute: int := 60_000
  const MsPerDay: int := 86_400_000
  const RetentionDays: int := 90
  /** "now − 90 days" as a fixed offset (no calendar or daylight-saving shifts). */
  const RetentionMs: int := RetentionDays * MsPerDay

  /** One tracked night. Every field but `id` and `startTime` is optional; a
      session is completed when `endTime` is present. */
  datatype SleepSession = SleepSession(
    id: string,
    startTime: Timestamp,
    endTime: Option<Timestamp>,
    duration: Option<int>,     // minutes
    score: Option<int>,
    deepSleep: Option<int>,    // minutes
    lightSleep: Option<int>,   // minutes
    awakenings: Option<int>,
    notes: Option<string>)

  datatype SleepSettings = SleepSettings(
    suggestedBedtime: string,
    suggestedWakeTime: string,
    sleepGoalHours: int)

  const DefaultSettings: SleepSettings := SleepSettings("11:00 PM", "7:00 AM", 8)

  /** The three slots of the store, stored under the keys
      "@sleep_master:current_session", "@sleep_master:sleep_history" and
      "@sleep_master:settings". */
  datatype Key = CurrentSessionKey | SleepHistoryKey | SettingsKey

  /** What a slot holds: a decoded value, or text that does not parse. */
  datatype Entry =
    | SessionEntry(session: SleepSession)
    | HistoryEntry(sessions: seq<SleepSession>)
    | SettingsEntry(settings: SleepSettings)
    | Unparsable

  /** Each slot holds its own kind of value, or unparsable text. */
  predicate WellShaped(slots: map<Key, Entry>) {
    && (CurrentSessionKey in slots ==> slots[CurrentSessionKey].SessionEntry? || slots[CurrentSessionKey].Unparsable?)
    && (SleepHistoryKey in slots ==> slots[SleepHistoryKey].HistoryEntry? || slots[SleepHistoryKey].Unparsable?)
    && (SettingsKey in slots ==> slots[SettingsKey].SettingsEntry? || slots[SettingsKey].Unparsable?)
  }

  /** The error a write or a removal rethrows. */
  datatype StorageError = WriteRejected(key: Key)

  /** The outcome of a write: it completed, or it threw. */
  datatype Status = Ok | Err(error: StorageError)

  // ---------------------------------------------------------------------------
  // The store as values: what a fail-soft read returns, what a write does
  // ---------------------------------------------------------------------------

  /** getCurrentSession: the stored session, or null when the slot is empty,
      the read is rejected or the text does not parse. */
  function ReadCurrent(slots: map<Key, Entry>, unreadable: set<Key>): (r: Option<SleepSession>)
    ensures r.Some? <==> CurrentSessionKey !in unreadable && CurrentSessionKey in slots && slots[CurrentSessionKey].SessionEntry?
    ensures r.Some? ==> r.value == slots[CurrentSessionKey].session
  {
    if CurrentSessionKey in unreadable || CurrentSessionKey !in slots then None
    else match slots[CurrentSessionKey]
      case SessionEntry(s) => Some(s)
      case _ => None
  }

  /** getSleepHistory: the stored history, or [] when the slot is empty, the
      read is rejected or the text does not parse. */
  function ReadHistory(slots: map<Key, Entry>, unreadable: set<Key>): (r: seq<SleepSession>)
    ensures SleepHistoryKey !in unreadable && SleepHistoryKey in slots && slots[SleepHistoryKey].HistoryEntry?
            ==> r == slots[SleepHistoryKey].sessions
    ensures !(SleepHistoryKey !in unreadable && SleepHistoryKey in slots && slots[SleepHistoryKey].HistoryEntry?)
            ==> r == []
  {
    if SleepHistoryKey in unreadable || SleepHistoryKey !in slots then []
    else match slots[SleepHistoryKey]
      case HistoryEntry(h) => h
      case _ => []
  }

  /** setItem on one slot: rethrows when rejected, and then nothing changes. */
  function Write(slots: map<Key, Entry>, unwritable: set<Key>, k: Key, e: Entry): (r: (Status, map<Key, Entry>))
    ensures r.0 == Ok <==> k !in unwritable
    ensures r.0.Err? ==> r.0.error == WriteRejected(k) && r.1 == slots
    ensures r.0.Ok? ==> r.1.Keys == slots.Keys + {k} && r.1[k] == e
    ensures forall k' :: k' in slots && k' != k ==> k' in r.1 && r.1[k'] == slots[k']
  {
    if k in unwritable then (Err(WriteRejected(k)), slots) else (Ok, slots[k := e])
  }

  /** removeItem on one slot: rethrows when rejected; removing an empty slot
      succeeds. */
  function Remove(slots: map<Key, Entry>, unwritable: set<Key>, k: Key): (r: (Status, map<Key, Entry>))
    ensures r.0 == Ok <==> k !in unwritable
    ensures r.0.Err? ==> r.0.error == WriteRejected(k) && r.1 == slots
    ensures r.0.Ok? ==> r.1.Keys == slots.Keys - {k}
    ensures forall k' :: k' in slots && k' != k ==> k' in r.1 && r.1[k'] == slots[k']
  {
    if k in unwritable then (Err(WriteRejected(k)), slots) else (Ok, slots - {k})
  }

  // ---------------------------------------------------------------------------
  // History: retention and the last completed night
  // ---------------------------------------------------------------------------

  /** `history.filter(s => s.startTime > cutoff)`. */
  function KeepRecent(history: seq<SleepSession>, cutoff: Timestamp): (r: seq<SleepSession>)
    ensures |r| <= |history|
    ensures forall i :: 0 <= i < |r| ==> r[i].startTime > cutoff
    ensures forall s :: s in r <==> s in history && s.startTime > cutoff
    decreases |history|
  {
    if history == [] then []
    else (if history[0].startTime > cutoff then [history[0]] else []) + KeepRecent(history[1..], cutoff)
  }

  /** The retention filter keeps every occurrence of an in-window entry and no
      occurrence of any other. */
  lemma {:induction false} KeepRecentCounts(history: seq<SleepSession>, cutoff: Timestamp)
    ensures forall s :: multiset(KeepRecent(history, cutoff))[s] == (if s.startTime > cutoff then multiset(history)[s] else 0)
    decreases |history|
  {
    if history != [] {
      KeepRecentCounts(history[1..], cutoff);
      assert history == [history[0]] + history[1..];
    }
  }

  /** `sub` is obtained from `s` by deleting some entries (order is kept). */
  predicate IsSubsequence(sub: seq<SleepSession>, s: seq<SleepSession>)
    decreases |s|
  {
    if sub == [] then true
    else if s == [] then false
    else if sub[0] == s[0] then IsSubsequence(sub[1..], s[1..])
    else IsSubsequence(sub, s[1..])
  }

  /** The retention filter keeps the relative order of the entries it keeps. */
  lemma {:induction false} KeepRecentIsSubsequence(history: seq<SleepSession>, cutoff: Timestamp)
    ensures IsSubsequence(KeepRecent(history, cutoff), history)
    decreases |history|
  {
    if history != [] {
      KeepRecentIsSubsequence(history[1..], cutoff);
      var rest := KeepRecent(history[1..], cutoff);
      if history[0].startTime > cutoff {
        assert KeepRecent(history, cutoff) == [history[0]] + rest;
        assert ([history[0]] + rest)[1..] == rest;
      } else {
        assert KeepRecent(history, cutoff) == rest;
        SkipHead(rest, history);
      }
    }
  }

  lemma {:induction false} SkipHead(sub: seq<SleepSession>, s: seq<SleepSession>)
    requires s != [] && IsSubsequence(sub, s[1..])
    ensures IsSubsequence(sub, s)
    decreases |s|, 0
  {
    if sub != [] && sub[0] == s[0] {
      // sub[1..] is a subsequence of s[1..] because sub is
      SubsequenceTail(sub, s[1..]);
    }
  }

  lemma {:induction false} SubsequenceTail(sub: seq<SleepSession>, s: seq<SleepSession>)
    requires sub != [] && IsSubsequence(sub, s)
    ensures IsSubsequence(sub[1..], s)
    decreases |s|, 1
  {
    assert s != [];
    if sub[0] == s[0] {
      if sub[1..] != [] {
        SubsequenceTail(sub[1..], s[1..]);
        SkipHead(sub[1..], s);
      }
    } else {
      SubsequenceTail(sub, s[1..]);
      SkipHead(sub[1..], s);
    }
  }

  /** What addSessionToHistory writes: the session put in front of the stored
      history, then the retention filter with cutoff now − 90 days. */
  function HistoryAfterAdd(slots: map<Key, Entry>, unreadable: set<Key>, session: SleepSession, now: Timestamp): (h: seq<SleepSession>)
    ensures forall i :: 0 <= i < |h| ==> h[i].startTime > now - RetentionMs
    ensures session.startTime > now - RetentionMs ==> |h| > 0 && h[0] == session
  {
    var all := [session] + ReadHistory(slots, unreadable);
    assert all[0] == session && all[1..] == ReadHistory(slots, unreadable);
    KeepRecent(all, now - RetentionMs)
  }

  /** The written history: every entry is inside the window, an old entry is
      kept exactly when it is inside the window, and the new session comes
      first exactly when it is itself inside the window. */
  lemma HistoryAfterAddFacts(slots: map<Key, Entry>, unreadable: set<Key>, session: SleepSession, now: Timestamp)
    ensures var old_ := ReadHistory(slots, unreadable);
            var h := HistoryAfterAdd(slots, unreadable, session, now);
            && (forall i :: 0 <= i < |h| ==> h[i].startTime > now - RetentionMs)
            && (forall s :: s in old_ && s.startTime > now - RetentionMs ==> s in h)
            && (session.startTime > now - RetentionMs ==> h == [session] + KeepRecent(old_, now - RetentionMs))
            && (session.startTime <= now - RetentionMs ==> h == KeepRecent(old_, now - RetentionMs))
            && IsSubsequence(h, [session] + old_)
            && (forall s :: multiset(h)[s] == (if s.startTime > now - RetentionMs then multiset([session] + old_)[s] else 0))
  {
    var old_ := ReadHistory(slots, unreadable);
    var all := [session] + old_;
    assert all[1..] == old_;
    KeepRecentIsSubsequence(all, now - RetentionMs);
    KeepRecentCounts(all, now - RetentionMs);
  }

  /** `history.filter(s => s.endTime)`: the completed sessions, in order. */
  function Completed(history: seq<SleepSession>): (r: seq<SleepSession>)
    ensures forall i :: 0 <= i < |r| ==> r[i].endTime.Some?
    ensures forall s :: s in r <==> s in history && s.endTime.Some?
    decreases |history|
  {
    if history == [] then []
    else (if history[0].endTime.Some? then [history[0]] else []) + Completed(history[1..])
  }

  /** The completed-session filter keeps every occurrence of a completed
      entry and no occurrence of any other. */
  lemma {:induction false} CompletedCounts(history: seq<SleepSession>)
    ensures forall s :: multiset(Completed(history))[s] == (if s.endTime.Some? then multiset(history)[s] else 0)
    decreases |history|
  {
    if history != [] {
      CompletedCounts(history[1..]);
      assert history == [history[0]] + history[1..];
    }
  }

  /** The completed sessions keep their relative order. */
  lemma {:induction false} CompletedIsSubsequence(history: seq<SleepSession>)
    ensures IsSubsequence(Completed(history), history)
    decreases |history|
  {
    if history != [] {
      CompletedIsSubsequence(history[1..]);
      var rest := Completed(history[1..]);
      if history[0].endTime.Some? {
        assert Completed(history) == [history[0]] + rest;
        assert ([history[0]] + rest)[1..] == rest;
      } else {
        assert Completed(history) == rest;
        SkipHead(rest, history);
      }
    }
  }

  /** getLastNightSession on a history: the first completed session, if any. */
  function FirstCompleted(history: seq<SleepSession>): (r: Option<SleepSession>)
    ensures r.None? <==> forall i :: 0 <= i < |history| ==> history[i].endTime.None?
    ensures r.Some? ==> r.value in history && r.value.endTime.Some?
  {
    if |history| == 0 then None
    else
      var done := Completed(history);
      if |done| == 0 then None else Some(done[0])
  }

  /** The first completed session is the first entry having an `endTime`:
      every entry before it lacks one, and there is none when no entry has one. */
  lemma {:induction false} FirstCompletedIsFirst(history: seq<SleepSession>)
    ensures FirstCompleted(history).None? <==> forall i :: 0 <= i < |history| ==> history[i].endTime.None?
    ensures FirstCompleted(history).Some? ==>
              exists k :: 0 <= k < |history| && history[k] == FirstCompleted(history).value
                && history[k].endTime.Some?
                && forall j :: 0 <= j < k ==> history[j].endTime.None?
    decreases |history|
  {
    if history != [] {
      FirstCompletedIsFirst(history[1..]);
      if history[0].endTime.Some? {
        assert FirstCompleted(history).value == history[0];
      } else {
        assert Completed(history) == Completed(history[1..]);
        if FirstCompleted(history[1..]).Some? {
          var k :| 0 <= k < |history[1..]| && history[1..][k] == FirstCompleted(history[1..]).value
                   && history[1..][k].endTime.Some?
                   && forall j :: 0 <= j < k ==> history[1..][j].endTime.None?;
          assert history[k + 1] == FirstCompleted(history).value;
          forall j | 0 <= j < k + 1 ensures history[j].endTime.None? {
            if j > 0 { assert history[j] == history[1..][j - 1]; }
          }
        } else {
          forall i | 0 <= i < |history| ensures history[i].endTime.None? {
            if i > 0 { assert history[i] == history[1..][i - 1]; }
          }
        }
      }
    }
  }

  // ---------------------------------------------------------------------------
  // The key-value store
  // ---------------------------------------------------------------------------

  /** The persistent store: three slots, plus the slots whose reads are
      rejected (`unreadable`) and whose writes and removals are rejected
      (`unwritable`). Reads fail soft; writes rethrow. */
  class SessionStore {
    var slots: map<Key, Entry>
    var unreadable: set<Key>
    var unwritable: set<Key>

    ghost predicate Valid()
      reads this
    {
      WellShaped(slots)
    }

    constructor (initial: map<Key, Entry>, unreadable: set<Key>, unwritable: set<Key>)
      requires WellShaped(initial)
      ensures Valid()
      ensures slots == initial && this.unreadable == unreadable && this.unwritable == unwritable
    {
      slots := initial;
      this.unreadable := unreadable;
      this.unwritable := unwritable;
    }

    method SaveCurrentSession(session: SleepSession) returns (status: Status)
      requires Valid()
      modifies this`slots
      ensures Valid()
      ensures status == Ok <==> CurrentSessionKey !in unwritable
      ensures (status, slots) == Write(old(slots), unwritable, CurrentSessionKey, SessionEntry(session))
    {
      var r := Write(slots, unwritable, CurrentSessionKey, SessionEntry(session));
      status, slots := r.0, r.1;
    }

    method GetCurrentSession() returns (r: Option<SleepSession>)
      ensures r.Some? <==> CurrentSessionKey !in unreadable && CurrentSessionKey in slots && slots[CurrentSessionKey].SessionEntry?
      ensures r.Some? ==> r.value == slots[CurrentSessionKey].session
    {
      if CurrentSessionKey in unreadable {
        // getItem rejected: logged and swallowed
        return None;
      }
      if CurrentSessionKey !in slots {
        return None;
      }
      match slots[CurrentSessionKey]
      case SessionEntry(s) => r := Some(s);
      case _ => r := None;  // JSON.parse threw: logged and swallowed
    }

    method ClearCurrentSession() returns (status: Status)
      requires Valid()
      modifies this`slots
      ensures Valid()
      ensures status == Ok <==> CurrentSessionKey !in unwritable
      ensures (status, slots) == Remove(old(slots), unwritable, CurrentSessionKey)
    {
      var r := Remove(slots, unwritable, CurrentSessionKey);
      status, slots := r.0, r.1;
    }

    method SaveSleepHistory(sessions: seq<SleepSession>) returns (status: Status)
      requires Valid()
      modifies this`slots
      ensures Valid()
      ensures status == Ok <==> SleepHistoryKey !in unwritable
      ensures (status, slots) == Write(old(slots), unwritable, SleepHistoryKey, HistoryEntry(sessions))
    {
      var r := Write(slots, unwritable, SleepHistoryKey, HistoryEntry(sessions));
      status, slots := r.0, r.1;
    }

    method GetSleepHistory() returns (r: seq<SleepSession>)
      ensures SleepHistoryKey !in unreadable && SleepHistoryKey in slots && slots[SleepHistoryKey].HistoryEntry?
              ==> r == slots[SleepHistoryKey].sessions
      ensures !(SleepHistoryKey !in unreadable && SleepHistoryKey in slots && slots[SleepHistoryKey].HistoryEntry?)
              ==> r == []
    {
      if SleepHistoryKey in unreadable || SleepHistoryKey !in slots {
        return [];
      }
      match slots[SleepHistoryKey]
      case HistoryEntry(h) => r := h;
      case _ => r := [];
    }

    /** Reads the history, puts `session` in front, keeps the entries that
        started after now − 90 days and writes the result back; a rejected
        write rethrows and leaves the store as it was. */
    method AddSessionToHistory(session: SleepSession, now: Timestamp) returns (status: Status)
      requires Valid()
      modifies this`slots
      ensures Valid()
      ensures status == Ok <==> SleepHistoryKey !in unwritable
      ensures (status, slots) == Write(old(slots), unwritable, SleepHistoryKey,
                                       HistoryEntry(HistoryAfterAdd(old(slots), unreadable, session, now)))
    {
      var history := GetSleepHistory();
      history := [session] + history;  // unshift
      var ninetyDaysAgo := now - RetentionMs;
      var filtered := KeepRecent(history, ninetyDaysAgo);
      status := SaveSleepHistory(filtered);
    }

    method GetLastNightSession() returns (r: Option<SleepSession>)
      ensures r == FirstCompleted(ReadHistory(slots, unreadable))
      ensures r.Some? ==> r.value in ReadHistory(slots, unreadable) && r.value.endTime.Some?
    {
      var history := GetSleepHistory();
      if |history| == 0 {
        return None;
      }
      var completedSessions := Completed(history);
      if |completedSessions| == 0 {
        return None;
      }
      r := Some(completedSessions[0]);
    }

    method SaveSettings(settings: SleepSettings) returns (status: Status)
      requires Valid()
      modifies this`slots
      ensures Valid()
      ensures status == Ok <==> SettingsKey !in unwritable
      ensures (status, slots) == Write(old(slots), unwritable, SettingsKey, SettingsEntry(settings))
    {
      var r := Write(slots, unwritable, SettingsKey, SettingsEntry(settings));
      status, slots := r.0, r.1;
    }

    method GetSettings() returns (r: SleepSettings)
      ensures SettingsKey !in unreadable && SettingsKey in slots && slots[SettingsKey].SettingsEntry?
              ==> r == slots[SettingsKey].settings
      ensures !(SettingsKey !in unreadable && SettingsKey in slots && slots[SettingsKey].SettingsEntry?)
              ==> r == SleepSettings("11:00 PM", "7:00 AM", 8)
    {
      if SettingsKey in unreadable || SettingsKey !in slots {
        return DefaultSettings;
      }
      match slots[SettingsKey]
      case SettingsEntry(s) => r := s;
      case _ => r := DefaultSettings;
    }
  }

  // ---------------------------------------------------------------------------
  // Durations and their text
  // ---------------------------------------------------------------------------

  /** Whole minutes from `start` to `end`, rounded down (also when negative). */
  function CalculateSleepDuration(start: Timestamp, end: Timestamp): (minutes: int)
    ensures minutes * MsPerMinute <= end - start < (minutes + 1) * MsPerMinute
    ensures end >= start ==> minutes >= 0
  {
    (end - start) / MsPerMinute
  }

  /** `Math.floor(minutes / 60)` and JavaScript's `minutes % 60`, whose sign
      follows the dividend. */
  function DurationParts(minutes: int): (hm: (int, int))
    ensures minutes >= 0 ==> hm.0 * 60 + hm.1 == minutes && 0 <= hm.1 < 60 && hm.0 >= 0
    ensures minutes < 0 ==> -60 < hm.1 <= 0 && hm.0 < 0
    ensures minutes < 0 ==> hm.0 * 60 + hm.1 == (if hm.1 == 0 then minutes else minutes - 60)
  {
    var hours := minutes / 60;
    var mins := if minutes >= 0 then minutes % 60 else -((-minutes) % 60);
    (hours, mins)
  }

  /** `${hours}h ${mins}m`. */
  function FormatDuration(minutes: int): (text: string)
    ensures minutes >= 0 ==> ParseDuration(text) == Some(minutes)
  {
    ParseRendered(if minutes >= 0 then minutes / 60 else 0, if minutes >= 0 then minutes % 60 else 0);
    var hm := DurationParts(minutes);
    IntToString(hm.0) + "h " + IntToString(hm.1) + "m"
  }

  /** First index of `c` in `s`, or |s| when absent. */
  function IndexOf(s: string, c: char): (i: nat)
    ensures i <= |s|
    ensures i < |s| ==> s[i] == c
    ensures forall j :: 0 <= j < i ==> s[j] != c
    decreases |s|
  {
    if s == [] then 0 else if s[0] == c then 0 else 1 + IndexOf(s[1..], c)
  }

  /** Reads back text of the form "{h}h {m}m" with decimal h and m, giving
      h·60 + m. */
  function ParseDuration(s: string): Option<int> {
    var i := IndexOf(s, 'h');
    if 0 < i && i + 3 < |s| && s[i + 1] == ' ' && s[|s| - 1] == 'm'
       && IsDigits(s[..i]) && IsDigits(s[i + 2..|s| - 1])
    then Some(ParseNat(s[..i]) * 60 + ParseNat(s[i + 2..|s| - 1]))
    else None
  }

  /** Text rendered as "{h}h {m}m" from decimal numerals reads back to
      h·60 + m. */
  lemma ParseRendered(h: nat, m: nat)
    ensures ParseDuration(NatToString(h) + "h " + NatToString(m) + "m") == Some(h * 60 + m)
  {
    var a, b := NatToString(h), NatToString(m);
    var s := a + "h " + b + "m";
    assert |s| == |a| + |b| + 3;
    assert IndexOf(s, 'h') == |a| by {
      assert s[|a|] == 'h';
      forall j | 0 <= j < |a| ensures s[j] != 'h' { assert s[j] == a[j]; }
    }
    assert s[|a| + 1] == ' ' && s[|s| - 1] == 'm';
    assert s[..|a|] == a;
    assert s[|a| + 2..|s| - 1] == b;
    ParseNatToString(h);
    ParseNatToString(m);
    assert IsDigits(a) && IsDigits(b) && 0 < |a| && 0 < |b|;
  }

  /** For a non-negative number of minutes the text is "{⌊d/60⌋}h {d mod 60}m"
      and reads back to the same number of minutes. */
  lemma FormatDurationRoundTrip(minutes: int)
    requires minutes >= 0
    ensures FormatDuration(minutes) == NatToString(minutes / 60) + "h " + NatToString(minutes % 60) + "m"
    ensures ParseDuration(FormatDuration(minutes)) == Some(minutes)
  {
  }

  // ---------------------------------------------------------------------------
  // Sleep stages and score
  // ---------------------------------------------------------------------------

  /** `Math.floor(duration * 0.25)`. */
  function DeepSleepMinutes(duration: int): (m: int)
    ensures 4 * m <= duration < 4 * m + 4
  {
    duration * 25 / 100
  }

  /** `Math.floor(duration * 0.65)`. */
  function LightSleepMinutes(duration: int): (m: int)
    ensures 100 * m <= 65 * duration < 100 * m + 100
  {
    duration * 65 / 100
  }

  /** For a non-negative duration the two stages are non-negative and fit
      inside it. */
  lemma StagesWithinDuration(duration: int)
    ensures duration >= 0 ==> 0 <= DeepSleepMinutes(duration) && 0 <= LightSleepMinutes(duration)
    ensures duration >= 0 ==> DeepSleepMinutes(duration) + LightSleepMinutes(duration) <= duration
  {
  }

  /** Duration points: the duration in hours, `duration / 60`, against the
      bands [7, 9] → 40, [6, 7) → 30, [5, 6) → 20, anything else → 10. */
  function DurationPoints(duration: int): (p: int)
    ensures p == (if 420 <= duration <= 540 then 40
                  else if 360 <= duration < 420 then 30
                  else if 300 <= duration < 360 then 20
                  else 10)
  {
    var hours := duration as real / 60.0;
    if 7.0 <= hours && hours <= 9.0 then 40
    else if 6.0 <= hours && hours < 7.0 then 30
    else if 5.0 <= hours && hours < 6.0 then 20
    else 10
  }

  /** The deep-sleep share of the night in percent, `deep / duration * 100`. */
  function Percentage(deep: int, duration: int): real
    requires duration != 0
  {
    (deep as real / duration as real) * 100.0
  }

  /** `percentage >= k` decided on integers by cross-multiplying with the
      duration (the comparison flips for a negative duration). */
  function PercentAtLeast(deep: int, duration: int, k: int): (b: bool)
    requires duration != 0
    ensures b <==> Percentage(deep, duration) >= k as real
  {
    CrossMultiply(deep, duration, k);
    if duration > 0 then 100 * deep >= k * duration else 100 * deep <= k * duration
  }

  /** `percentage <= k` decided on integers by cross-multiplying. */
  function PercentAtMost(deep: int, duration: int, k: int): (b: bool)
    requires duration != 0
    ensures b <==> Percentage(deep, duration) <= k as real
  {
    CrossMultiply(deep, duration, k);
    if duration > 0 then 100 * deep <= k * duration else 100 * deep >= k * duration
  }

  lemma CrossMultiply(deep: int, duration: int, k: int)
    requires duration != 0
    ensures duration > 0 ==> (Percentage(deep, duration) >= k as real <==> 100 * deep >= k * duration)
    ensures duration > 0 ==> (Percentage(deep, duration) <= k as real <==> 100 * deep <= k * duration)
    ensures duration < 0 ==> (Percentage(deep, duration) >= k as real <==> 100 * deep <= k * duration)
    ensures duration < 0 ==> (Percentage(deep, duration) <= k as real <==> 100 * deep >= k * duration)
  {
    var w := duration as real;
    var p := Percentage(deep, duration);
    assert p * w == 100.0 * deep as real;
    assert (100 * deep) as real == 100.0 * deep as real;
    assert (k * duration) as real == k as real * w;
    if duration > 0 {
      assert p >= k as real <==> p * w >= k as real * w;
      assert p <= k as real <==> p * w <= k as real * w;
    } else {
      assert p >= k as real <==> p * w <= k as real * w;
      assert p <= k as real <==> p * w >= k as real * w;
    }
  }

  /** Deep-sleep points: a share in [20, 25] percent → 30, in [15, 20) → 20,
      anything else → 10. */
  function DeepSleepPoints(deep: int, duration: int): (p: int)
    requires duration != 0
    ensures duration > 0 ==>
              p == (if 20 * duration <= 100 * deep <= 25 * duration then 30
                    else if 15 * duration <= 100 * deep < 20 * duration then 20
                    else 10)
    ensures duration < 0 ==>
              p == (if 25 * duration <= 100 * deep <= 20 * duration then 30
                    else if 20 * duration < 100 * deep <= 15 * duration then 20
                    else 10)
    ensures p in {10, 20, 30}
  {
    CrossMultiply(deep, duration, 20);
    CrossMultiply(deep, duration, 25);
    CrossMultiply(deep, duration, 15);
    var pct := Percentage(deep, duration);
    if pct >= 20.0 && pct <= 25.0 then 30
    else if pct >= 15.0 && pct < 20.0 then 20
    else 10
  }

  /** Awakening points: 0 → 30, 1 → 25, 2 → 20, any other count up to 4
      (negative ones included) → 10, more than 4 → 5. */
  function AwakeningPoints(awakenings: int): (p: int)
    ensures p in {5, 10, 20, 25, 30}
  {
    if awakenings == 0 then 30
    else if awakenings == 1 then 25
    else if awakenings == 2 then 20
    else if awakenings <= 4 then 10
    else 5
  }

  /** Fewer awakenings never score less. */
  lemma AwakeningPointsMonotone(a: int, b: int)
    requires 0 <= a <= b
    ensures AwakeningPoints(a) >= AwakeningPoints(b)
  {
  }

  /** The sleep score of a session: 0 when the duration is absent or 0;
      otherwise the duration points, plus the deep-sleep points when the deep
      sleep is present and nonzero, plus the awakening points when the
      awakenings are present, capped at 100. */
  function SleepScore(session: SleepSession): (score: int)
    ensures 0 <= score <= 100
    ensures score == 0 <==> session.duration.None? || session.duration.value == 0
    ensures score != 0 ==> score >= 10
  {
    if session.duration.None? || session.duration.value == 0 then 0
    else
      var d := session.duration.value;
      var deep := if session.deepSleep.Some? && session.deepSleep.value != 0
                  then DeepSleepPoints(session.deepSleep.value, d) else 0;
      var awake := if session.awakenings.Some? then AwakeningPoints(session.awakenings.value) else 0;
      var total := DurationPoints(d) + deep + awake;
      if total < 100 then total else 100
  }

  /** The score is the plain sum of its parts: the cap of 100 never binds, and
      a part is added exactly when its field is present (and, for deep sleep,
      nonzero). */
  lemma ScoreIsSumOfParts(session: SleepSession)
    requires session.duration.Some? && session.duration.value != 0
    ensures SleepScore(session) ==
              DurationPoints(session.duration.value)
              + (if session.deepSleep.Some? && session.deepSleep.value != 0
                 then DeepSleepPoints(session.deepSleep.value, session.duration.value) else 0)
              + (if session.awakenings.Some? then AwakeningPoints(session.awakenings.value) else 0)
  {
  }

  /** The score reads only the duration, deep sleep and awakenings. */
  lemma ScoreReadsOnlyItsInputs(a: SleepSession, b: SleepSession)
    requires a.duration == b.duration && a.deepSleep == b.deepSleep && a.awakenings == b.awakenings
    ensures SleepScore(a) == SleepScore(b)
  {
  }

  /** calculateSleepScore: the if-chains of the source accumulating into a
      local score, with the percentage bands decided on integers. */
  method CalculateSleepScore(session: SleepSession) returns (score: int)
    ensures score == SleepScore(session)
    ensures 0 <= score <= 100
  {
    if session.duration.None? || session.duration.value == 0 {
      return 0;
    }
    var duration := session.duration.value;
    score := 0;

    if 420 <= duration && duration <= 540 {
      score := score + 40;
    } else if 360 <= duration && duration < 420 {
      score := score + 30;
    } else if 300 <= duration && duration < 360 {
      score := score + 20;
    } else {
      score := score + 10;
    }
    assert score == DurationPoints(duration);

    if session.deepSleep.Some? && session.deepSleep.value != 0 {
      var deep := session.deepSleep.value;
      if PercentAtLeast(deep, duration, 20) && PercentAtMost(deep, duration, 25) {
        score := score + 30;
      } else if PercentAtLeast(deep, duration, 15) && !PercentAtLeast(deep, duration, 20) {
        score := score + 20;
      } else {
        score := score + 10;
      }
    }

    if session.awakenings.Some? {
      var awakenings := session.awakenings.value;
      if awakenings == 0 {
        score := score + 30;
      } else if awakenings == 1 {
        score := score + 25;
      } else if awakenings == 2 {
        score := score + 20;
      } else if awakenings <= 4 {
        score := score + 10;
      } else {
        score := score + 5;
      }
    }

    if score > 100 {
      score := 100;
    }
  }

  /** Worked examples: an 8-hour night with a quarter of deep sleep and no
      awakening scores 100; a 6-hour night alone scores 30; a night of 0
      minutes scores 0 whatever else it holds. */
  lemma ScoreExamples(id: string, start: Timestamp)
    ensures SleepScore(SleepSession(id, start, None, Some(480), None, Some(120), None, Some(0), None)) == 100
    ensures SleepScore(SleepSession(id, start, None, Some(360), None, None, None, None, None)) == 30
    ensures SleepScore(SleepSession(id, start, None, Some(0), None, Some(0), Some(0), Some(1), None)) == 0
  {
  }
}
