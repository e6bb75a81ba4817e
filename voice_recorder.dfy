/**
 * The hold-to-talk voice recorder: pressing starts a recording and a
 * one-second interval that counts its duration, releasing stops it and hands
 * the recorded file's URI to the chat screen. The audio engine's answers
 * (permission, whether a recording could be prepared or stopped, the URI it
 * reports) are parameters of the operations.
 */
module VoiceRecording {
  import opened Wrappers
  import opened JsBuiltins

  /**
   * `formatDuration`: whole minutes, a colon, and the seconds as two digits;
   * for a count that is not negative the colon is always third from the end.
   */
  function FormatDuration(secs: int): (r: string)
    ensures ':' in r
    ensures secs >= 0 ==> |r| >= 4 && r[|r| - 3] == ':'
  {
    var r := IntToString(secs / 60) + ":" + TwoDigits(JsRem(secs, 60));
    assert r[|IntToString(secs / 60)|] == ':';
    if secs >= 0 then
      TwoDigitsWidth(JsRem(secs, 60));
      r
    else r
  }

  /** The two fields of a displayed duration, read back, give the seconds counted. */
  lemma DurationReadsBack(secs: nat)
    ensures var parts := Split(FormatDuration(secs), ':');
            |parts| == 2 && |parts[1]| == 2 &&
            ToNumber(parts[0]).Some? && ToNumber(parts[1]).Some? &&
            ToNumber(parts[1]).value < 60 &&
            ToNumber(parts[0]).value * 60 + ToNumber(parts[1]).value == secs
  {
    var m, s := NatToString(secs / 60), TwoDigits(secs % 60);
    assert FormatDuration(secs) == m + [':'] + s;
    NatToStringValue(secs / 60);
    TwoDigitsValue(secs % 60);
    NumeralLength(secs % 60);
    DigitsExclude(m, ':');
    DigitsExclude(s, ':');
    SplitTwo(m, s, ':');
  }

  // ------------------------------------------------------------- recorder

  /** A prepared recording; `uri` is what `getURI()` reports once it has stopped. */
  datatype Recording = Recording(uri: Option<string>)

  /**
   * The recorder's state: the recording object, the `isRecording` flag, the
   * seconds counted, whether `timerRef` holds an interval, how many
   * intervals are still running (cleared or not), and the URIs handed to
   * `onRecordComplete` so far.
   */
  datatype RecorderState = RecorderState(
    recording: Option<Recording>,
    isRecording: bool,
    duration: int,
    timerSet: bool,
    liveTimers: nat,
    completed: seq<string>)

  /** The interval held by `timerRef` is one of the running ones. */
  predicate Consistent(st: RecorderState) {
    st.timerSet ==> st.liveTimers > 0
  }

  /** Nothing is being recorded and nothing is being counted by `timerRef`. */
  predicate Idle(st: RecorderState) {
    st.recording.None? && !st.isRecording && st.duration == 0 && !st.timerSet
  }

  /** A recording is under way, counted by the interval in `timerRef`. */
  predicate Active(st: RecorderState) {
    st.recording.Some? && st.isRecording && st.timerSet
  }

  /**
   * `startRecording` (press in). `granted` is the permission answer;
   * `created` is the prepared recording, or `None` when switching the audio
   * mode or preparing the recording threw. A lingering recording is unloaded
   * first, but an interval still held by `timerRef` is overwritten, not
   * cleared.
   */
  function Start(st: RecorderState, disabled: bool, granted: bool, created: Option<Recording>): (r: RecorderState)
    ensures disabled ==> r == st
    ensures !disabled && (!granted || created.None?) ==> r == st.(recording := None)
    ensures !disabled && granted && created.Some? ==>
              r.recording == created && r.isRecording && r.duration == 0 &&
              r.timerSet && r.liveTimers == st.liveTimers + 1
    ensures r.completed == st.completed
    ensures Consistent(st) ==> Consistent(r)
  {
    if disabled then st
    else
      var unloaded := st.(recording := None);
      if !granted || created.None? then unloaded
      else
        unloaded.(recording := created, isRecording := true, duration := 0,
                  timerSet := true, liveTimers := st.liveTimers + 1)
  }

  /** One firing of a running interval: `setDuration(d => d + 1)`. */
  function Tick(st: RecorderState): (r: RecorderState)
    requires st.liveTimers > 0
    ensures r.duration == st.duration + 1
    ensures r.(duration := st.duration) == st
  {
    st.(duration := st.duration + 1)
  }

  /**
   * `stopRecording` (press out). `stopped` says whether stopping and
   * unloading the recording and resetting the audio mode succeeded; only
   * then is the recording's URI, when it has a non-empty one, reported.
   */
  function Stop(st: RecorderState, stopped: bool): (r: RecorderState)
    requires Consistent(st)
    ensures st.recording.None? ==> r == st
    ensures st.recording.Some? ==> Idle(r) && r.liveTimers == (if st.timerSet then st.liveTimers - 1 else st.liveTimers)
    ensures st.recording.Some? && stopped && st.recording.value.uri.Some? && st.recording.value.uri.value != "" ==>
              r.completed == st.completed + [st.recording.value.uri.value]
    ensures !(st.recording.Some? && stopped && st.recording.value.uri.Some? && st.recording.value.uri.value != "") ==>
              r.completed == st.completed
    ensures Consistent(r)
  {
    if st.recording.None? then st
    else
      var untimed := if st.timerSet then st.(timerSet := false, liveTimers := st.liveTimers - 1) else st;
      var reset := untimed.(isRecording := false, recording := None, duration := 0);
      var uri := st.recording.value.uri;
      if stopped && uri.Some? && uri.value != "" then reset.(completed := st.completed + [uri.value])
      else reset
  }

  /** A press from rest either starts a counted recording or leaves the recorder at rest. */
  lemma PressFromIdle(st: RecorderState, disabled: bool, granted: bool, created: Option<Recording>)
    requires Idle(st)
    ensures var r := Start(st, disabled, granted, created);
            (Idle(r) && r.liveTimers == st.liveTimers) || (Active(r) && r.duration == 0)
  {
  }

  /** Releasing during a recording returns the recorder to rest and reports at most one URI. */
  lemma ReleaseFromActive(st: RecorderState, stopped: bool)
    requires Active(st) && Consistent(st)
    ensures var r := Stop(st, stopped);
            Idle(r) && r.liveTimers == st.liveTimers - 1 &&
            |st.completed| <= |r.completed| <= |st.completed| + 1 &&
            r.completed[..|st.completed|] == st.completed &&
            (|r.completed| > |st.completed| ==> stopped && st.recording.value.uri == Some(r.completed[|st.completed|]))
  {
  }

  /** A single press and release counts the seconds in between and then shows zero again. */
  lemma PressTicksRelease(st: RecorderState, granted: bool, rec: Recording, ticks: nat, stopped: bool)
    requires Idle(st) && Consistent(st) && st.liveTimers == 0 && granted
    ensures var r := Start(st, false, granted, Some(rec));
            Active(r) && r.liveTimers == 1 && Counted(r, ticks).duration == ticks &&
            Active(Counted(r, ticks)) &&
            var done := Stop(Counted(r, ticks), stopped);
            Idle(done) && done.liveTimers == 0
  {
    var r := Start(st, false, granted, Some(rec));
    CountedKeepsRest(r, ticks);
  }

  /** `n` firings of the running intervals. */
  function Counted(st: RecorderState, n: nat): (r: RecorderState)
    requires st.liveTimers > 0
    ensures r.liveTimers == st.liveTimers
  {
    if n == 0 then st else Tick(Counted(st, n - 1))
  }

  lemma {:induction false} CountedKeepsRest(st: RecorderState, n: nat)
    requires st.liveTimers > 0
    ensures Counted(st, n).duration == st.duration + n
    ensures Counted(st, n).(duration := st.duration) == st
  {
    if n > 0 {
      CountedKeepsRest(st, n - 1);
    }
  }

  /**
   * Pressing again while recording unloads the old recording but leaves its
   * interval running without a handle: after the release one interval is
   * still counting, so the duration moves while the recorder is at rest.
   */
  lemma RestartLeavesIntervalRunning(st: RecorderState, rec: Recording, stopped: bool)
    requires Active(st) && Consistent(st)
    ensures var again := Start(st, false, true, Some(rec));
            var done := Stop(again, stopped);
            Idle(done) && done.liveTimers == st.liveTimers &&
            done.liveTimers > 0 && Tick(done).duration == 1
  {
  }

  /** The component: its props, its state hooks and the interval it keeps in `timerRef`. */
  class Recorder {
    const disabled: bool
    var recording: Option<Recording>
    var isRecording: bool
    var duration: int
    var timerSet: bool
    var liveTimers: nat
    /** The URIs passed to `onRecordComplete`, in order. */
    var completed: seq<string>

    function State(): RecorderState
      reads this
    {
      RecorderState(recording, isRecording, duration, timerSet, liveTimers, completed)
    }

    predicate Valid()
      reads this
    {
      Consistent(State())
    }

    constructor(disabled: bool)
      ensures this.disabled == disabled
      ensures Idle(State()) && Valid() && liveTimers == 0 && completed == []
    {
      this.disabled := disabled;
      recording, isRecording, duration := None, false, 0;
      timerSet, liveTimers, completed := false, 0, [];
    }

    method StartRecording(granted: bool, created: Option<Recording>)
      requires Valid()
      modifies this`recording, this`isRecording, this`duration, this`timerSet, this`liveTimers
      ensures State() == Start(old(State()), disabled, granted, created)
      ensures Valid()
    {
      if disabled {
        return;
      }
      if recording.Some? {
        recording := None;
      }
      if !granted || created.None? {
        return;
      }
      recording, isRecording, duration := created, true, 0;
      timerSet, liveTimers := true, liveTimers + 1;
    }

    method OnInterval()
      requires liveTimers > 0
      modifies this`duration
      ensures State() == Tick(old(State()))
    {
      duration := duration + 1;
    }

    method StopRecording(stopped: bool)
      requires Valid()
      modifies this`recording, this`isRecording, this`duration, this`timerSet, this`liveTimers, this`completed
      ensures State() == Stop(old(State()), stopped)
      ensures Valid()
    {
      if recording.None? {
        return;
      }
      var rec := recording.value;
      if timerSet {
        timerSet, liveTimers := false, liveTimers - 1;
      }
      isRecording := false;
      if stopped {
        recording, duration := None, 0;
        if rec.uri.Some? && rec.uri.value != "" {
          completed := completed + [rec.uri.value];
        }
      } else {
        recording, duration := None, 0;
      }
    }
  }
}
