/**
 * The inline player for a voice message: it loads the sound, mirrors the
 * playback status the audio engine reports, and toggles between playing and
 * pausing, restarting from the beginning when the sound has reached its end.
 * The audio engine itself is outside the model: what it reports is a
 * parameter, and what the player asks of it is a returned command.
 */
module AudioPlayback {
  import opened Wrappers
  import opened JsBuiltins
  import VoiceRecording

  /** `formatMs`: the whole seconds of a millisecond count, shown as minutes and two-digit seconds. */
  function FormatMs(ms: int): (r: string)
    ensures ':' in r
    ensures ms >= 0 ==> |r| >= 4 && r[|r| - 3] == ':'
  {
    var totalSec := ms / 1000;
    var r := IntToString(totalSec / 60) + ":" + TwoDigits(JsRem(totalSec, 60));
    assert r[|IntToString(totalSec / 60)|] == ':';
    if ms >= 0 then
      TwoDigitsWidth(JsRem(totalSec, 60));
      r
    else r
  }

  /** A millisecond count is shown as the recorder shows its whole seconds. */
  lemma FormatMsAgreesWithDuration(ms: int)
    ensures FormatMs(ms) == VoiceRecording.FormatDuration(ms / 1000)
  {
  }

  /** The milliseconds within a second do not show. */
  lemma FormatMsTruncates(secs: nat, k: int)
    requires 0 <= k < 1000
    ensures FormatMs(1000 * secs + k) == FormatMs(1000 * secs)
  {
    assert (1000 * secs + k) / 1000 == secs;
    assert (1000 * secs) / 1000 == secs;
  }

  /** The two fields shown for a millisecond count read back as its whole seconds. */
  lemma MsReadsBack(ms: nat)
    ensures var parts := Split(FormatMs(ms), ':');
            |parts| == 2 && ToNumber(parts[0]).Some? && ToNumber(parts[1]).Some? &&
            ToNumber(parts[0]).value * 60 + ToNumber(parts[1]).value == ms / 1000
  {
    FormatMsAgreesWithDuration(ms);
    VoiceRecording.DurationReadsBack(ms / 1000);
  }

  /** The width of the progress bar: the played fraction, or 0 while the duration is unknown. */
  function Progress(position: int, durationMs: int): (r: real)
    ensures durationMs <= 0 ==> r == 0.0
    ensures durationMs > 0 ==> r * (durationMs as real) == position as real
  {
    if durationMs > 0 then (position as real) / (durationMs as real) else 0.0
  }

  /** Within the sound the progress is a fraction between 0 and 1, reaching 1 at the end. */
  lemma ProgressBounded(position: int, durationMs: int)
    requires 0 <= position <= durationMs
    ensures 0.0 <= Progress(position, durationMs) <= 1.0
    ensures durationMs > 0 && position == durationMs ==> Progress(position, durationMs) == 1.0
  {
    if durationMs > 0 {
      var r := Progress(position, durationMs);
      var d := durationMs as real;
      assert r * d == position as real;
      ScaledBounds(r, d);
    }
  }

  /** A fraction of a positive whole lies between 0 and 1 when the part does. */
  lemma ScaledBounds(r: real, d: real)
    requires d > 0.0
    ensures r * d >= 0.0 ==> r >= 0.0
    ensures r * d <= d ==> r <= 1.0
  {
  }

  /** What the audio engine reports to the status callback. */
  datatype PlaybackStatus =
    | NotLoaded
    | Loaded(positionMillis: int, durationMillis: Option<int>, isPlaying: bool, didJustFinish: bool)

  /** What a press of the play button asks of the sound. */
  datatype Command = NoCommand | Pause | Play(seekToStart: bool)

  /** The player's state: whether a sound was created, whether the effect is still mounted, and its state hooks. */
  datatype PlayerState = PlayerState(soundLoaded: bool, mounted: bool, isPlaying: bool, position: int, durationMs: int)

  /** The status callback's effect on the state. */
  function OnStatus(st: PlayerState, status: PlaybackStatus): (r: PlayerState)
    ensures !st.mounted || status.NotLoaded? ==> r == st
    ensures st.mounted && status.Loaded? ==>
              r.soundLoaded == st.soundLoaded && r.mounted &&
              r.durationMs == (if status.durationMillis.Some? then status.durationMillis.value else 0) &&
              (status.didJustFinish ==> !r.isPlaying && r.position == 0) &&
              (!status.didJustFinish ==> r.isPlaying == status.isPlaying && r.position == status.positionMillis)
  {
    if !st.mounted || status.NotLoaded? then st
    else
      var mirrored := st.(position := status.positionMillis,
                          durationMs := if status.durationMillis.Some? then status.durationMillis.value else 0,
                          isPlaying := status.isPlaying);
      if status.didJustFinish then mirrored.(isPlaying := false, position := 0) else mirrored
  }

  /** The decision `togglePlay` makes on a state. */
  function Toggle(st: PlayerState): (c: Command)
    ensures c == NoCommand <==> !st.soundLoaded
    ensures c == Pause <==> st.soundLoaded && st.isPlaying
    ensures c.Play? <==> st.soundLoaded && !st.isPlaying
    ensures c.Play? ==> (c.seekToStart <==> st.durationMs > 0 && st.position >= st.durationMs - 100)
  {
    if !st.soundLoaded then NoCommand
    else if st.isPlaying then Pause
    else Play(st.durationMs > 0 && st.position >= st.durationMs - 100)
  }

  /** Once the effect is cleaned up, no status report changes the state. */
  lemma {:induction false} UnmountedIgnoresStatus(st: PlayerState, reports: seq<PlaybackStatus>)
    requires !st.mounted
    ensures Replay(st, reports) == st
  {
    if reports != [] {
      UnmountedIgnoresStatus(st, reports[..|reports| - 1]);
    }
  }

  /** The state after a sequence of status reports. */
  function Replay(st: PlayerState, reports: seq<PlaybackStatus>): (r: PlayerState)
    ensures r.soundLoaded == st.soundLoaded && r.mounted == st.mounted
  {
    if reports == [] then st else OnStatus(Replay(st, reports[..|reports| - 1]), reports[|reports| - 1])
  }

  /**
   * When the sound reports it has just finished, the player rewinds its
   * position, so the next press plays again without asking to seek, unless
   * the whole sound is shorter than the 100 ms end margin.
   */
  lemma FinishedThenPressed(st: PlayerState, position: int, duration: int, playing: bool)
    requires st.mounted && st.soundLoaded
    ensures var r := OnStatus(st, Loaded(position, Some(duration), playing, true));
            Toggle(r) == Play(0 < duration <= 100)
  {
  }

  /** A press while the status says the end is reached asks to seek to the start before playing. */
  lemma PressedAtEndSeeks(st: PlayerState, position: int, duration: int)
    requires st.mounted && st.soundLoaded && duration > 0 && position >= duration - 100
    ensures Toggle(OnStatus(st, Loaded(position, Some(duration), false, false))) == Play(true)
  {
  }

  /** A sound whose duration is not reported never asks to seek. */
  lemma UnknownDurationNeverSeeks(st: PlayerState, position: int, playing: bool, finished: bool)
    requires st.mounted
    ensures Toggle(OnStatus(st, Loaded(position, None, playing, finished))) != Play(true)
  {
  }

  /** The component, with `soundRef`, the `mounted` flag of its loading effect and its state hooks. */
  class Player {
    var soundLoaded: bool
    var mounted: bool
    var isPlaying: bool
    var position: int
    var durationMs: int

    function State(): PlayerState
      reads this
    {
      PlayerState(soundLoaded, mounted, isPlaying, position, durationMs)
    }

    constructor()
      ensures State() == PlayerState(false, true, false, 0, 0)
    {
      soundLoaded, mounted, isPlaying, position, durationMs := false, true, false, 0, 0;
    }

    /** `createAsync` settles: `created` is false when it, or setting the audio mode, threw. */
    method SoundCreated(created: bool)
      modifies this`soundLoaded
      ensures soundLoaded == (old(soundLoaded) || created)
    {
      if created {
        soundLoaded := true;
      }
    }

    /** The status callback passed to `createAsync`. */
    method OnPlaybackStatus(status: PlaybackStatus)
      modifies this`isPlaying, this`position, this`durationMs
      ensures State() == OnStatus(old(State()), status)
    {
      if !mounted || status.NotLoaded? {
        return;
      }
      position := status.positionMillis;
      durationMs := if status.durationMillis.Some? then status.durationMillis.value else 0;
      isPlaying := status.isPlaying;
      if status.didJustFinish {
        isPlaying := false;
        position := 0;
      }
    }

    /** The effect's cleanup. */
    method Unmount()
      modifies this`mounted
      ensures !mounted
    {
      mounted := false;
    }

    /** `togglePlay`: the command sent to the sound, decided from the current state. */
    method TogglePlay() returns (c: Command)
      ensures c == Toggle(State())
      ensures c == NoCommand <==> !soundLoaded
      ensures c.Play? && c.seekToStart ==> !isPlaying && durationMs > 0 && position >= durationMs - 100
    {
      if !soundLoaded {
        return NoCommand;
      }
      if isPlaying {
        return Pause;
      }
      c := Play(durationMs > 0 && position >= durationMs - 100);
    }
  }
}
