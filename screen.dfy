/**
 * The logic inside the playback screen: the `m:ss` position label and the
 * actions behind the transport buttons.
 */
module Screen {
  import opened Options
  import opened Kotlin
  import opened Media
  import opened Songs
  import opened Controller
  import opened ViewModel
  import opened Format

  const SEEK_STEP: int := 10 * 1000

  /** `(time / 60000).toInt()`. */
  function Minutes(time: Long): Int
  {
    ToInt(TruncDiv(time, 60000))
  }

  /** `(time % 60000 / 1000).toInt()`. */
  function Seconds(time: Long): Int
  {
    ToInt(TruncDiv(TruncRem(time, 60000), 1000))
  }

  /** The label for given minutes and seconds: `%2d`, a colon, `%02d`. */
  function Label(minutes: int, seconds: int): string
  {
    SpacePadded(minutes, 2) + ":" + ZeroPadded(seconds, 2)
  }

  /** `toTime`. */
  function ToTime(time: Long): string
  {
    Label(Minutes(time), Seconds(time))
  }

  /** The largest time whose minute count still fits in an `Int`. */
  const MAX_CLOCK_TIME: int := 128_849_018_879_999  // 60000 * 2^31 - 1

  /**
   * For a non-negative time within the `Int` minute range, the fields are whole
   * minutes and the seconds 0..59 of the rest; together they are the time cut
   * down to the whole second.
   */
  lemma ClockFields(t: Long)
    requires 0 <= t <= MAX_CLOCK_TIME
    ensures 0 <= Minutes(t) == t / 60000
    ensures 0 <= Seconds(t) <= 59
    ensures Minutes(t) * 60000 + Seconds(t) * 1000 == t - t % 1000
  {
    MinutesInRange(t);
    SecondsInRange(t);
    WholeSeconds(t);
  }

  /** Whole minutes and the whole seconds of the rest make up the time cut down to the second. */
  lemma WholeSeconds(t: int)
    requires 0 <= t
    ensures (t / 60000) * 60000 + ((t % 60000) / 1000) * 1000 == t - t % 1000
  {
    var q, r := t / 60000, t % 60000;
    var sec, u := r / 1000, r % 1000;
    assert t == 1000 * (60 * q + sec) + u;
  }

  /** Within the `Int` minute range the minutes field is the whole minutes of the time. */
  lemma MinutesInRange(t: Long)
    requires 0 <= t <= MAX_CLOCK_TIME
    ensures Minutes(t) == t / 60000
  {
    assert TruncDiv(t, 60000) == t / 60000;
    assert t / 60000 <= INT_MAX;
  }

  /** The seconds field never passes through the minute wrap: it lies in 0..59 for every non-negative time. */
  lemma SecondsInRange(t: Long)
    requires 0 <= t
    ensures 0 <= Seconds(t) <= 59
    ensures Seconds(t) == (t % 60000) / 1000
  {
    assert TruncDiv(t, 60000) == t / 60000;
    assert TruncRem(t, 60000) == t % 60000;
    assert TruncDiv(t % 60000, 1000) == (t % 60000) / 1000;
  }

  /** Reads an `m:ss` label back as milliseconds: the inverse `ToTime` is checked against. */
  function ParseClock(s: string): (r: Option<nat>)
  {
    if |s| < 4 || s[|s| - 3] != ':' then None
    else ParseClockFields(TrimLeft(s[..|s| - 3], ' '), s[|s| - 2..])
  }

  /** The milliseconds of a minutes field and a seconds field, when both are digits. */
  function ParseClockFields(minutes: string, seconds: string): (r: Option<nat>)
  {
    if minutes == [] || !AllDigits(minutes) || !AllDigits(seconds) then None
    else Some(ParseDigits(minutes) * 60000 + ParseDigits(seconds) * 1000)
  }

  /** A minutes part (after its padding) and a two-digit seconds part, joined by a colon, read back as their sum. */
  lemma ParseClockParts(a: string, b: string, m: nat, sec: nat)
    requires |b| == 2 && AllDigits(b) && ParseDigits(b) == sec
    requires TrimLeft(a, ' ') != [] && AllDigits(TrimLeft(a, ' ')) && ParseDigits(TrimLeft(a, ' ')) == m
    ensures ParseClock(a + ":" + b).Some? && ParseClock(a + ":" + b).value == m * 60000 + sec * 1000
  {
    JoinColon(a, b);
  }

  /** Joining a non-empty part and a two-character part around a colon keeps both recoverable. */
  lemma JoinColon(a: string, b: string)
    requires |a| >= 1 && |b| == 2
    ensures ParseClock(a + ":" + b) == ParseClockFields(TrimLeft(a, ' '), b)
  {
    var s := a + ":" + b;
    assert s[|s| - 3] == ':';
    assert s[..|s| - 3] == a;
    assert s[|s| - 2..] == b;
  }

  /** `%2d` of a natural number is its digits after only spaces. */
  lemma SpacePaddedNat(m: nat)
    ensures TrimLeft(SpacePadded(m, 2), ' ') == NatDigits(m)
  {
    var digits := NatDigits(m);
    var a := SpacePadded(m, 2);
    assert a == Repeat(' ', |a| - |digits|) + digits;
    TrimPadding(|a| - |digits|, digits, ' ');
  }

  /** A label of whole minutes and seconds 0..59 reads back as the milliseconds they stand for. */
  lemma LabelRoundTrip(m: nat, sec: nat)
    requires sec < 60
    ensures ParseClock(Label(m, sec)).Some? && ParseClock(Label(m, sec)).value == m * 60000 + sec * 1000
  {
    var a, b := SpacePadded(m, 2), ZeroPadded(sec, 2);
    TwoDigitsRoundTrip(sec);
    SpacePaddedNat(m);
    ParseNatDigits(m);
    ParseClockParts(a, b, m, sec);
    assert Label(m, sec) == a + ":" + b;
  }

  /** The label of a non-negative time reads back as that time truncated to the second. */
  lemma ToTimeRoundTrip(t: Long)
    requires 0 <= t <= MAX_CLOCK_TIME
    ensures ParseClock(ToTime(t)).Some? && ParseClock(ToTime(t)).value == t - t % 1000
  {
    ClockFields(t);
    LabelRoundTrip(Minutes(t), Seconds(t));
  }

  /** `%2d` of a number below 100: two characters, a space first exactly when it has one digit. */
  lemma SpacePaddedTwo(m: nat)
    requires m < 100
    ensures |SpacePadded(m, 2)| == 2 && IsDigit(SpacePadded(m, 2)[1])
    ensures SpacePadded(m, 2)[0] == ' ' <==> m < 10
  {
    var d := NatDigits(m);
    if m >= 10 {
      assert d == NatDigits(m / 10) + [DigitChar(m % 10)];
      assert SpacePadded(m, 2) == d;
    } else {
      assert SpacePadded(m, 2) == [' '] + d;
    }
  }

  /** Below 100 minutes the label is exactly five characters, with a space for a leading zero. */
  lemma LabelLayout(m: nat, sec: nat)
    requires m < 100 && sec < 60
    ensures |Label(m, sec)| == 5 && Label(m, sec)[2] == ':'
    ensures Label(m, sec)[0] == ' ' <==> m < 10
    ensures IsDigit(Label(m, sec)[1]) && AllDigits(Label(m, sec)[3..])
  {
    var a, b := SpacePadded(m, 2), ZeroPadded(sec, 2);
    TwoDigitsRoundTrip(sec);
    SpacePaddedTwo(m);
    JoinTwoByTwo(a, b);
    assert Label(m, sec) == a + ":" + b;
  }

  lemma JoinTwoByTwo(a: string, b: string)
    requires |a| == 2 && |b| == 2
    ensures |a + ":" + b| == 5 && (a + ":" + b)[2] == ':'
    ensures (a + ":" + b)[0] == a[0] && (a + ":" + b)[1] == a[1] && (a + ":" + b)[3..] == b
  {
  }

  lemma ToTimeLayout(t: Long)
    requires 0 <= t < 100 * 60000
    ensures |ToTime(t)| == 5 && ToTime(t)[2] == ':'
    ensures ToTime(t)[0] == ' ' <==> t < 10 * 60000
    ensures IsDigit(ToTime(t)[1]) && AllDigits(ToTime(t)[3..])
  {
    ClockFields(t);
    LabelLayout(Minutes(t), Seconds(t));
  }

  /** A negative time, which polling can publish, keeps Kotlin's truncating signs in the label. */
  lemma NegativeTimeFields()
    ensures Minutes(-1000) == 0 && Seconds(-1000) == -1
    ensures Minutes(-61000) == -1 && Seconds(-61000) == -1
  {
  }

  /** For every negative time in range, both fields are the fields of its magnitude with the sign put back. */
  lemma NegativeClockFields(t: Long)
    requires -MAX_CLOCK_TIME <= t < 0
    ensures Minutes(t) == -((-t) / 60000)
    ensures Seconds(t) == -(((-t) % 60000) / 1000)
  {
    var q, r := (-t) / 60000, (-t) % 60000;
    assert TruncDiv(t, 60000) == -q;
    assert TruncRem(t, 60000) == -r;
    assert TruncDiv(-r, 1000) == -(r / 1000);
    assert -q >= INT_MIN && -(r / 1000) >= INT_MIN;
  }

  lemma NegativeTimeLabel()
    ensures ToTime(-1000) == " 0:-1"
    ensures ToTime(-61000) == "-1:-1"
  {
    NegativeTimeFields();
    assert NatDigits(0) == "0" && NatDigits(1) == "1";
    assert SpacePadded(0, 2) == " 0";
    assert SpacePadded(-1, 2) == "-1";
    assert ZeroPadded(-1, 2) == "-1";
    assert Label(0, -1) == " 0:-1";
    assert Label(-1, -1) == "-1:-1";
  }

  /** Past `Int` range the minute count wraps to a negative number. */
  lemma MinutesWrap()
    ensures Minutes(MAX_CLOCK_TIME + 1) == INT_MIN
  {
  }

  /** The Replay10 target: ten seconds back, but not below 0. */
  function Replay10Target(position: Long): (target: Long)
    ensures target >= 0
    ensures position - SEEK_STEP >= LONG_MIN ==>
      target == if position - SEEK_STEP < 0 then 0 else position - SEEK_STEP
    ensures position - SEEK_STEP < LONG_MIN ==> target == position - SEEK_STEP + 0x1_0000_0000_0000_0000
  {
    var back := WrapLong(position - SEEK_STEP);
    if back < 0 then 0 else back
  }

  /** The Forward10 target: ten seconds on, whatever the track's duration. */
  function Forward10Target(position: Long): (target: Long)
    ensures position + SEEK_STEP <= LONG_MAX ==> target == position + SEEK_STEP
    ensures position + SEEK_STEP > LONG_MAX ==> target < 0
  {
    WrapLong(position + SEEK_STEP)
  }

  /** What the play button asks for. */
  datatype PlayIntent = AskPause | AskResume

  /** Which icon the play button shows. */
  datatype PlayIcon = PauseIcon | PlayArrowIcon

  function PlayButtonIntent(state: Option<SongState>): (r: PlayIntent)
    ensures r == AskPause <==> state == Some(Playing)
  {
    if state == Some(Playing) then AskPause else AskResume
  }

  function PlayButtonIcon(state: Option<SongState>): (r: PlayIcon)
    ensures r == PauseIcon <==> state == Some(Playing)
  {
    if state == Some(Playing) then PauseIcon else PlayArrowIcon
  }

  /**
   * Once an event has been published, the play button shows Pause and asks to
   * pause exactly when the player is playing and neither idle nor ended.
   */
  lemma PlayButtonFollowsPlayer(p: PlayerSnapshot)
    ensures PlayButtonIcon(Some(EventOf(p).state)) == PauseIcon
      <==> p.isPlaying && p.playbackState != STATE_IDLE && p.playbackState != STATE_ENDED
    ensures PlayButtonIntent(Some(EventOf(p).state)) == AskPause
      <==> p.isPlaying && p.playbackState != STATE_IDLE && p.playbackState != STATE_ENDED
  {
  }

  /** The repeat mode the repeat button sends: off when repeat-one is on, one otherwise. */
  function RepeatButtonMode(isRepeatOneEnabled: bool): (mode: Int)
    ensures isRepeatOneEnabled ==> mode == REPEAT_MODE_OFF
    ensures !isRepeatOneEnabled ==> mode == REPEAT_MODE_ONE
  {
    if isRepeatOneEnabled then 0 else 1
  }

  /** Once the player applies the requested mode, the next event reports the flag flipped. */
  lemma RepeatButtonToggles(isRepeatOneEnabled: bool, player: PlayerSnapshot)
    requires player.repeatMode == RepeatButtonMode(isRepeatOneEnabled)
    ensures EventOf(player).repeatOne == !isRepeatOneEnabled
  {
  }

  /** The prepare button: install the built-in list, then play its first entry. */
  method PrepareButtonClick(vm: PlaySongViewModel)
    modifies vm`uiState, vm.controller`forwarded
    ensures vm.uiState == old(vm.uiState).(
      songs := Some(DefaultPlayList(vm.resources)),
      selectedSong := Some(DefaultPlayList(vm.resources)[0]))
    ensures vm.controller.forwarded == old(vm.controller.forwarded)
      + Sent(vm.controller.connected,
             [SetMediaItems(ToMediaItems(DefaultPlayList(vm.resources)))] + PlayCommands(0))
  {
    ghost var before := vm.controller.forwarded;
    vm.InitializePlaylist();
    ghost var list := DefaultPlayList(vm.resources);
    assert vm.uiState.songs == Some(list) && vm.uiState.selectedSong == Some(list[0]);
    assert PrepareIndex(vm.uiState) == Some(0) by {
      IndexOfFirst(list);
    }
    vm.Prepare();
    assert vm.controller.forwarded
      == before + Sent(vm.controller.connected, [SetMediaItems(ToMediaItems(list))])
         + Sent(vm.controller.connected, PlayCommands(0));
  }
}
