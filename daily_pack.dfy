/** The daily-pack player: a track index, a play flag and the elapsed
    seconds of the current track, over a pack's non-empty item list.

    The screen's state changes are written twice: once as pure step
    functions on `PlaybackState` (the specification, about which the
    lemmas below speak) and once as the methods of `Player`, whose fields
    the React state hooks stand for and whose every method is proved to
    perform the matching step. */
module DailyPack {
  import opened Types
  import opened Text

  // ---------------------------------------------------------------------
  // formatTime
  // ---------------------------------------------------------------------

  /** The seconds part: always two characters, zero-padded below ten. */
  function SecondsText(secs: nat): (r: string)
    requires secs < 60
    ensures |r| == 2 && AllDigits(r)
  {
    if secs < 10 then "0" + NatToString(secs) else NatToString(secs)
  }

  /** `formatTime`: whole minutes, a colon, seconds padded to two digits.
      The screen passes it the elapsed time and item durations, never a
      negative number. */
  function FormatTime(seconds: nat): (r: string)
    ensures |r| >= 4 && r[|r| - 3] == ':'
    ensures AllDigits(r[..|r| - 3]) && AllDigits(r[|r| - 2..])
  {
    NatToString(seconds / 60) + ":" + SecondsText(seconds % 60)
  }

  /** Reads an "m:ss" text back, or `None` when it does not have that form. */
  function ParseTime(t: string): Option<nat> {
    if |t| >= 4 && t[|t| - 3] == ':' && AllDigits(t[..|t| - 3]) && AllDigits(t[|t| - 2..])
    then Some(ParseNat(t[..|t| - 3]) * 60 + ParseNat(t[|t| - 2..]))
    else None
  }

  /** The shape of a formatted time: a non-empty run of minute digits, the
      colon third from the end, two second digits; the minute digits read as
      floor(seconds / 60) and the second digits as seconds mod 60. */
  lemma FormatTimeShape(seconds: nat)
    ensures var r := FormatTime(seconds);
      && |r| >= 4 && r[|r| - 3] == ':'
      && AllDigits(r[..|r| - 3]) && AllDigits(r[|r| - 2..])
      && ParseNat(r[..|r| - 3]) == seconds / 60
      && ParseNat(r[|r| - 2..]) == seconds % 60
  {
    var r := FormatTime(seconds);
    var m, s := seconds / 60, seconds % 60;
    NatToStringParses(m);
    NatToStringParses(s);
    var mins, secs := NatToString(m), SecondsText(s);
    assert |secs| == 2 && AllDigits(secs) && ParseNat(secs) == s by {
      if s < 10 {
        assert secs == "0" + NatToString(s);
        assert secs[..1] == "0";
      }
    }
    assert r == mins + ":" + secs;
    assert r[..|r| - 3] == mins;
    assert r[|r| - 2..] == secs;
  }

  /** Formatting loses nothing: the text determines the number of seconds. */
  lemma ParseFormatTime(seconds: nat)
    ensures ParseTime(FormatTime(seconds)) == Some(seconds)
  {
    FormatTimeShape(seconds);
  }

  lemma FormatTimeInjective(a: nat, b: nat)
    requires FormatTime(a) == FormatTime(b)
    ensures a == b
  {
    ParseFormatTime(a);
    ParseFormatTime(b);
  }

  // ---------------------------------------------------------------------
  // The playback state machine, as pure steps
  // ---------------------------------------------------------------------

  datatype PlaybackState = PlaybackState(index: nat, isPlaying: bool, elapsed: int)

  /** The state the screen keeps between steps: the index names an item and
      the elapsed time lies within that item's duration. */
  predicate InRange(items: seq<AudioItem>, s: PlaybackState) {
    s.index < |items| && 0 <= s.elapsed <= items[s.index].durationSec
  }

  /** The effect that runs whenever the index changes (and on mount): back to
      the start of the track, playing. */
  function TrackChanged(s: PlaybackState): (r: PlaybackState)
    ensures r.index == s.index && r.elapsed == 0 && r.isPlaying
  {
    s.(elapsed := 0, isPlaying := true)
  }

  /** The hooks' initial values (index 0, paused, 0 s), followed by the
      index effect, which also runs on mount: playback starts at once. */
  function Mounted(): (r: PlaybackState)
    ensures r.index == 0 && r.elapsed == 0 && r.isPlaying
  {
    TrackChanged(PlaybackState(0, false, 0))
  }

  /** One second of the interval timer. The timer exists only while playing,
      so a paused state does not move. Below the duration the elapsed time
      grows by one; once it has reached the duration, this tick moves to the
      next item (the index effect then restarts playback at 0) or, on the
      last item, stops and leaves the elapsed time where it is. */
  function TickStep(items: seq<AudioItem>, s: PlaybackState): (r: PlaybackState)
    requires PlayableItems(items) && InRange(items, s)
    ensures InRange(items, r)
  {
    if !s.isPlaying then s
    else if s.elapsed >= items[s.index].durationSec then
      if s.index < |items| - 1 then TrackChanged(s.(index := s.index + 1))
      else s.(isPlaying := false)
    else s.(elapsed := s.elapsed + 1)
  }

  function Clamp(x: int, lo: int, hi: int): int {
    if x < lo then lo else if x > hi then hi else x
  }

  /** `skip(seconds)`: a relative seek clamped to the current track. */
  function SkipStep(items: seq<AudioItem>, s: PlaybackState, seconds: int): (r: PlaybackState)
    requires PlayableItems(items) && InRange(items, s)
    ensures InRange(items, r)
  {
    s.(elapsed := Clamp(s.elapsed + seconds, 0, items[s.index].durationSec))
  }

  /** `handleTrackClick(i)`: select the track and play it. Only a change of
      index fires the index effect, so clicking the track already selected
      resumes it where it was instead of restarting it. */
  function TrackClickStep(items: seq<AudioItem>, s: PlaybackState, i: nat): (r: PlaybackState)
    requires PlayableItems(items) && InRange(items, s) && i < |items|
    ensures InRange(items, r)
  {
    if i != s.index then TrackChanged(s.(index := i)) else s.(isPlaying := true)
  }

  /** `togglePlay` */
  function ToggleStep(s: PlaybackState): (r: PlaybackState)
    ensures r.isPlaying == !s.isPlaying && r.index == s.index && r.elapsed == s.elapsed
  {
    s.(isPlaying := !s.isPlaying)
  }

  /** `n` consecutive timer ticks. */
  function Ticks(items: seq<AudioItem>, s: PlaybackState, n: nat): (r: PlaybackState)
    requires PlayableItems(items) && InRange(items, s)
    ensures InRange(items, r)
    decreases n
  {
    if n == 0 then s else Ticks(items, TickStep(items, s), n - 1)
  }

  // ---------------------------------------------------------------------
  // What one step does
  // ---------------------------------------------------------------------

  lemma MountedIsInRange(items: seq<AudioItem>)
    requires PlayableItems(items)
    ensures InRange(items, Mounted())
    ensures Mounted() == PlaybackState(0, true, 0)
  {
  }

  /** Below the duration a tick adds exactly one second and changes nothing else. */
  lemma TickBelowDuration(items: seq<AudioItem>, s: PlaybackState)
    requires PlayableItems(items) && InRange(items, s)
    requires s.isPlaying && s.elapsed < items[s.index].durationSec
    ensures TickStep(items, s) == PlaybackState(s.index, true, s.elapsed + 1)
  {
  }

  /** At the duration of a track that is not the last, the tick moves to the
      start of the next track and keeps playing. */
  lemma TickAdvances(items: seq<AudioItem>, s: PlaybackState)
    requires PlayableItems(items) && InRange(items, s)
    requires s.isPlaying && s.elapsed == items[s.index].durationSec && s.index < |items| - 1
    ensures TickStep(items, s) == PlaybackState(s.index + 1, true, 0)
  {
  }

  /** At the duration of the last track the tick stops playback, leaving the
      index and the elapsed time as they are. */
  lemma TickStopsOnLast(items: seq<AudioItem>, s: PlaybackState)
    requires PlayableItems(items) && InRange(items, s)
    requires s.isPlaying && s.elapsed == items[s.index].durationSec && s.index == |items| - 1
    ensures TickStep(items, s) == s.(isPlaying := false)
  {
  }

  /** No tick moves a paused player, however many arrive. */
  lemma {:induction false} PausedStaysPut(items: seq<AudioItem>, s: PlaybackState, n: nat)
    requires PlayableItems(items) && InRange(items, s) && !s.isPlaying
    ensures Ticks(items, s, n) == s
    decreases n
  {
    if n > 0 { PausedStaysPut(items, s, n - 1); }
  }

  /** A seek moves only the elapsed time: to the target when it lies inside
      the track, otherwise to the nearer end. */
  lemma SkipClamps(items: seq<AudioItem>, s: PlaybackState, seconds: int)
    requires PlayableItems(items) && InRange(items, s)
    ensures var r := SkipStep(items, s, seconds); var d := items[s.index].durationSec;
      && r.index == s.index && r.isPlaying == s.isPlaying
      && (0 <= s.elapsed + seconds <= d ==> r.elapsed == s.elapsed + seconds)
      && (s.elapsed + seconds < 0 ==> r.elapsed == 0)
      && (s.elapsed + seconds > d ==> r.elapsed == d)
  {
  }

  /** Skipping back undoes a skip forward that stayed inside the track. */
  lemma SkipRoundTrip(items: seq<AudioItem>, s: PlaybackState, seconds: int)
    requires PlayableItems(items) && InRange(items, s)
    requires 0 <= s.elapsed + seconds <= items[s.index].durationSec
    ensures SkipStep(items, SkipStep(items, s, seconds), -seconds) == s
  {
  }

  /** Selecting a track always plays it; a different track starts from 0,
      the current one resumes. */
  lemma TrackClickPlays(items: seq<AudioItem>, s: PlaybackState, i: nat)
    requires PlayableItems(items) && InRange(items, s) && i < |items|
    ensures var r := TrackClickStep(items, s, i);
      && r.index == i && r.isPlaying
      && (i != s.index ==> r.elapsed == 0)
      && (i == s.index ==> r.elapsed == s.elapsed)
  {
  }

  lemma ToggleTwice(s: PlaybackState)
    ensures ToggleStep(ToggleStep(s)) == s
    ensures ToggleStep(s).isPlaying != s.isPlaying
    ensures ToggleStep(s).index == s.index && ToggleStep(s).elapsed == s.elapsed
  {
  }

  // ---------------------------------------------------------------------
  // What runs of ticks do
  // ---------------------------------------------------------------------

  lemma {:induction false} TicksAdd(items: seq<AudioItem>, s: PlaybackState, m: nat, n: nat)
    requires PlayableItems(items) && InRange(items, s)
    ensures Ticks(items, s, m + n) == Ticks(items, Ticks(items, s, m), n)
    decreases m
  {
    if m > 0 {
      TicksAdd(items, TickStep(items, s), m - 1, n);
    }
  }

  /** While playing, the elapsed time climbs to the duration one second per
      tick without leaving the track. */
  lemma {:induction false} PlaysToDuration(items: seq<AudioItem>, s: PlaybackState)
    requires PlayableItems(items) && InRange(items, s) && s.isPlaying
    ensures Ticks(items, s, items[s.index].durationSec - s.elapsed)
         == s.(elapsed := items[s.index].durationSec)
    decreases items[s.index].durationSec - s.elapsed
  {
    if s.elapsed < items[s.index].durationSec {
      var t := TickStep(items, s);
      assert t == s.(elapsed := s.elapsed + 1);
      PlaysToDuration(items, t);
    }
  }

  /** A track played from its start takes its duration plus one ticks: the
      duration to reach its end, one more to move on (or to stop, on the
      last track). */
  lemma TrackTakesDurationPlusOne(items: seq<AudioItem>, i: nat)
    requires PlayableItems(items) && i < |items|
    ensures var s := PlaybackState(i, true, 0);
      Ticks(items, s, items[i].durationSec + 1)
        == if i < |items| - 1 then PlaybackState(i + 1, true, 0)
           else PlaybackState(i, false, items[i].durationSec)
  {
    var s := PlaybackState(i, true, 0);
    var d := items[i].durationSec;
    PlaysToDuration(items, s);
    TicksAdd(items, s, d, 1);
    var e := s.(elapsed := d);
    assert Ticks(items, e, 1) == TickStep(items, e);
  }

  /** The number of ticks from the start of item `i` to the end of the pack. */
  function RemainingTicks(items: seq<AudioItem>, i: nat): nat
    requires PlayableItems(items)
    decreases |items| - i
  {
    if i >= |items| then 0 else items[i].durationSec + 1 + RemainingTicks(items, i + 1)
  }

  /** Started at the beginning of item `i`, the player runs through every
      later item in order and stops at the end of the last one. */
  lemma {:induction false} PlaysThroughFrom(items: seq<AudioItem>, i: nat)
    requires PlayableItems(items) && i < |items|
    ensures Ticks(items, PlaybackState(i, true, 0), RemainingTicks(items, i))
         == PlaybackState(|items| - 1, false, items[|items| - 1].durationSec)
    decreases |items| - i
  {
    var s := PlaybackState(i, true, 0);
    var d := items[i].durationSec;
    TrackTakesDurationPlusOne(items, i);
    if i < |items| - 1 {
      TicksAdd(items, s, d + 1, RemainingTicks(items, i + 1));
      PlaysThroughFrom(items, i + 1);
    } else {
      assert RemainingTicks(items, i + 1) == 0;
    }
  }

  /** From mount, the whole pack plays through by itself and then rests,
      stopped on the last item's final second; later ticks change nothing. */
  lemma PlaysWholePack(items: seq<AudioItem>, extra: nat)
    requires PlayableItems(items)
    ensures Ticks(items, Mounted(), RemainingTicks(items, 0) + extra)
         == PlaybackState(|items| - 1, false, items[|items| - 1].durationSec)
  {
    var last := PlaybackState(|items| - 1, false, items[|items| - 1].durationSec);
    PlaysThroughFrom(items, 0);
    TicksAdd(items, Mounted(), RemainingTicks(items, 0), extra);
    PausedStaysPut(items, last, extra);
  }

  /** Two items of 3 and 5 seconds, playing the first at 2 seconds: the first
      tick reaches 3, the second moves to the next item at 0, the third
      plays its first second. */
  lemma TwoItemTiming(items: seq<AudioItem>)
    requires PlayableItems(items) && |items| == 2
    requires items[0].durationSec == 3 && items[1].durationSec == 5
    ensures Ticks(items, PlaybackState(0, true, 2), 1) == PlaybackState(0, true, 3)
    ensures Ticks(items, PlaybackState(0, true, 2), 2) == PlaybackState(1, true, 0)
    ensures Ticks(items, PlaybackState(0, true, 2), 3) == PlaybackState(1, true, 1)
  {
    var s := PlaybackState(0, true, 2);
    TicksAdd(items, s, 1, 1);
    TicksAdd(items, s, 2, 1);
  }

  /** One item of 2 seconds, from mount: after two ticks it is at 2 seconds
      and still playing; the third tick stops it; a fourth changes nothing. */
  lemma OneItemExhaustion(items: seq<AudioItem>)
    requires PlayableItems(items) && |items| == 1 && items[0].durationSec == 2
    ensures Ticks(items, Mounted(), 2) == PlaybackState(0, true, 2)
    ensures Ticks(items, Mounted(), 3) == PlaybackState(0, false, 2)
    ensures Ticks(items, Mounted(), 4) == PlaybackState(0, false, 2)
  {
    var s := Mounted();
    TicksAdd(items, s, 1, 1);
    TicksAdd(items, s, 2, 1);
    TicksAdd(items, s, 3, 1);
  }

  // ---------------------------------------------------------------------
  // The screen's state
  // ---------------------------------------------------------------------

  class Player {
    const items: seq<AudioItem>
    var currentTrackIndex: nat
    var isPlaying: bool
    var progress: int

    function State(): PlaybackState
      reads this
    {
      PlaybackState(currentTrackIndex, isPlaying, progress)
    }

    ghost predicate Valid()
      reads this
    {
      PlayableItems(items) && InRange(items, State())
    }

    /** Mounting the screen on a pack. */
    constructor (pack: DailyAudioPack)
      requires PlayableItems(pack.audioItems)
      ensures Valid() && items == pack.audioItems
      ensures State() == Mounted()
    {
      items := pack.audioItems;
      currentTrackIndex, isPlaying, progress := 0, false, 0;
      new;
      OnTrackChange();
    }

    /** The effect on `currentTrackIndex`. Between a click and this effect
        the previous track's elapsed time may exceed the new track's
        duration, so it asks only for a valid index. */
    method OnTrackChange()
      requires PlayableItems(items) && currentTrackIndex < |items|
      modifies this
      ensures Valid() && State() == TrackChanged(old(State()))
    {
      progress := 0;
      isPlaying := true;
    }

    /** The body of the interval callback, run once per second while playing. */
    method Tick()
      requires Valid()
      modifies this
      ensures Valid() && State() == TickStep(items, old(State()))
    {
      if isPlaying {
        if progress >= items[currentTrackIndex].durationSec {
          if currentTrackIndex < |items| - 1 {
            currentTrackIndex := currentTrackIndex + 1;
            progress := 0;
            OnTrackChange();
          } else {
            isPlaying := false;
          }
        } else {
          progress := progress + 1;
        }
      }
    }

    method Skip(seconds: int)
      requires Valid()
      modifies this
      ensures Valid() && State() == SkipStep(items, old(State()), seconds)
    {
      var target := progress + seconds;
      if target < 0 { target := 0; }
      if target > items[currentTrackIndex].durationSec {
        target := items[currentTrackIndex].durationSec;
      }
      progress := target;
    }

    /** Only indices of the rendered item list reach this handler. */
    method HandleTrackClick(index: nat)
      requires Valid() && index < |items|
      modifies this
      ensures Valid() && State() == TrackClickStep(items, old(State()), index)
    {
      var changed := index != currentTrackIndex;
      currentTrackIndex := index;
      isPlaying := true;
      if changed {
        OnTrackChange();
      }
    }

    method TogglePlay()
      requires Valid()
      modifies this
      ensures Valid() && State() == ToggleStep(old(State()))
    {
      isPlaying := !isPlaying;
    }

    /** The two time labels under the progress bar. */
    method TimeLabels() returns (elapsedText: string, durationText: string)
      requires Valid()
      ensures ParseTime(elapsedText) == Some(progress)
      ensures ParseTime(durationText) == Some(items[currentTrackIndex].durationSec)
    {
      elapsedText := FormatTime(progress);
      durationText := FormatTime(items[currentTrackIndex].durationSec);
      ParseFormatTime(progress);
      ParseFormatTime(items[currentTrackIndex].durationSec);
    }
  }

  /** A session on a pack of 3- and 5-second items, driven through the
      player's methods. */
  method PlaybackSession(pack: DailyAudioPack)
    requires PlayableItems(pack.audioItems) && |pack.audioItems| == 2
    requires pack.audioItems[0].durationSec == 3 && pack.audioItems[1].durationSec == 5
  {
    var p := new Player(pack);
    assert p.State() == PlaybackState(0, true, 0);
    p.Skip(2);
    p.Tick();
    assert p.State() == PlaybackState(0, true, 3);
    p.Tick();
    assert p.State() == PlaybackState(1, true, 0);
    p.Skip(-100);
    assert p.State() == PlaybackState(1, true, 0);
    p.Skip(100);
    assert p.State() == PlaybackState(1, true, 5);
    p.TogglePlay();
    p.Tick();
    assert p.State() == PlaybackState(1, false, 5);
    p.HandleTrackClick(1);
    assert p.State() == PlaybackState(1, true, 5);
    p.Tick();
    assert p.State() == PlaybackState(1, false, 5);
    p.HandleTrackClick(0);
    assert p.State() == PlaybackState(0, true, 0);
  }
}
