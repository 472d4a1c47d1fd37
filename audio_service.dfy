/** The audio service: it finds the default PulseAudio sink through
    `pactl`, polls the sink's volume and mute state every half second, and
    sends volume and mute changes back through `pactl`. Each `pactl` run is
    an input: it either could not be started, or exited with a status and
    an output. */
module AudioService {
  import opened Wrappers
  import opened RustText
  import FV = FloatValues

  datatype ProcessOutput = SpawnFailed | Exited(success: bool, stdout: string)

  // ---------------------------------------------------------------------
  // The default sink
  // ---------------------------------------------------------------------

  /** `detect_default_sink`: the trimmed answer of `pactl get-default-sink`
      when that succeeds with a non-blank answer, else the second
      whitespace-separated field of the first line of `pactl list short
      sinks`. A run that cannot be started is an error at once. */
  function DetectDefaultSink(getDefault: ProcessOutput, listShort: ProcessOutput): (r: Result<string, string>)
    ensures getDefault.SpawnFailed? ==> r.Err?
    ensures getDefault.Exited? && getDefault.success && Trim(getDefault.stdout) != [] ==> r == Ok(Trim(getDefault.stdout))
    ensures r.Ok? ==> r.value != [] && !IsWhitespace(r.value[0]) && !IsWhitespace(r.value[|r.value| - 1])
  {
    if getDefault.SpawnFailed? then Err("pactl could not be started")
    else if getDefault.success && Trim(getDefault.stdout) != [] then Ok(Trim(getDefault.stdout))
    else if listShort.SpawnFailed? then Err("pactl could not be started")
    else if listShort.success && |Lines(listShort.stdout)| > 0 && |SplitWhitespace(Lines(listShort.stdout)[0])| > 1
    then Ok(SplitWhitespace(Lines(listShort.stdout)[0])[1])
    else Err("No audio sink found")
  }

  /** Without a usable default, the sink is the second field of the first
      listed sink, and there is none when the listing fails, is empty or
      its first line has fewer than two fields. */
  lemma SinkFallback(getDefault: ProcessOutput, listShort: ProcessOutput)
    requires getDefault.Exited? && (!getDefault.success || AllWhitespace(getDefault.stdout))
    ensures listShort.Exited? && listShort.success && |Lines(listShort.stdout)| > 0 ==>
      var fields := SplitWhitespace(Lines(listShort.stdout)[0]);
      DetectDefaultSink(getDefault, listShort) == if |fields| > 1 then Ok(fields[1]) else Err("No audio sink found")
    ensures listShort.Exited? && (!listShort.success || listShort.stdout == []) ==> DetectDefaultSink(getDefault, listShort).Err?
  {
    TrimEmptyIffBlank(getDefault.stdout);
  }

  // ---------------------------------------------------------------------
  // Reading the volume and the mute state
  // ---------------------------------------------------------------------

  /** The volume in `pactl get-sink-volume` output: the token between the
      last space before the first '%' and that '%', read as a number and
      divided by 100; 0 when there is no '%', no space before it, or the
      token is not a number. */
  function ParseVolume(out: string): (volume: real)
    ensures '%' !in out ==> volume == 0.0
  {
    match Find(out, "%")
    case None => 0.0
    case Some(p) =>
      var before := out[..p];
      match RFindChar(before, ' ')
      case None => 0.0
      case Some(space) =>
        match ParseDecimal(before[space + 1..])
        case None => 0.0
        case Some(v) => v / 100.0
  }

  /** An output whose first '%' follows a space and a whole number of
      percent reads as that number over 100. */
  lemma ParseVolumeOf(prefix: string, percent: nat, rest: string)
    requires '%' !in prefix
    ensures ParseVolume(prefix + " " + NatToString(percent) + "%" + rest) == percent as real / 100.0
  {
    var digits := NatToString(percent);
    var head := prefix + " " + digits;
    VolumeToken(prefix, digits);
    FindAfterPrefix(head, "%", rest);
    assert (head + "%" + rest)[..|head|] == head;
    ParseDecimalWhole(percent);
  }

  /** The text before the '%': no '%' in it, its last space is the one after
      the prefix, and the digits follow that space. */
  lemma VolumeToken(prefix: string, digits: string)
    requires '%' !in prefix && AllDigits(digits)
    ensures var head := prefix + " " + digits;
      && '%' !in head && RFindChar(head, ' ') == Some(|prefix|) && head[|prefix| + 1..] == digits
  {
    var head := prefix + " " + digits;
    DigitsHaveNo(digits, '%');
    DigitsHaveNo(digits, ' ');
    assert forall i :: 0 <= i < |head| ==> head[i] == (if i < |prefix| then prefix[i] else if i == |prefix| then ' ' else digits[i - |prefix| - 1]);
    assert head[|prefix|] == ' ';
  }

  /** The mute state: a successful `pactl get-sink-mute` whose output
      contains "yes". */
  predicate ParseMuted(run: ProcessOutput)
    requires run.Exited?
  {
    run.success && Contains(run.stdout, "yes")
  }

  /** `read_current_state`: an error when either `pactl` run cannot be
      started; otherwise the volume (0 after an unsuccessful run) and the
      mute state. */
  function ReadCurrentState(volumeRun: ProcessOutput, muteRun: ProcessOutput): (r: Result<(real, bool), string>)
    ensures r.Ok? <==> volumeRun.Exited? && muteRun.Exited?
    ensures r.Ok? ==> r.value.1 == (muteRun.success && Contains(muteRun.stdout, "yes"))
    ensures r.Ok? && !volumeRun.success ==> r.value.0 == 0.0
    ensures r.Ok? && volumeRun.success ==> r.value.0 == ParseVolume(volumeRun.stdout)
  {
    if volumeRun.SpawnFailed? || muteRun.SpawnFailed? then Err("pactl could not be started")
    else Ok((if volumeRun.success then ParseVolume(volumeRun.stdout) else 0.0, ParseMuted(muteRun)))
  }

  // ---------------------------------------------------------------------
  // Requests
  // ---------------------------------------------------------------------

  /** The `pactl` invocations the service makes to change the sink. */
  datatype Request = SetSinkVolume(volume: string) | SetSinkMute(mute: string)

  /** `set_volume_value`: the volume clamped to 0..1, as a whole number of
      percent rounded down, followed by "%". */
  function SetVolumeValue(volume: real): (request: Request)
    ensures request.SetSinkVolume?
  {
    SetSinkVolume(NatToString(ToU32(FV.ClampUnit(volume) * 100.0)) + "%")
  }

  /** What the service asks for is what its own poll reads back: the
      clamped volume rounded down to a whole percent, within 0.01 of it. */
  lemma SetVolumeReadsBack(volume: real, prefix: string)
    requires '%' !in prefix
    ensures var c := FV.ClampUnit(volume); var read := ParseVolume(prefix + " " + SetVolumeValue(volume).volume);
      && read == (c * 100.0).Floor as real / 100.0
      && c - 0.01 < read <= c
  {
    var c := FV.ClampUnit(volume);
    var n := ToU32(c * 100.0);
    assert n == (c * 100.0).Floor;
    assert prefix + " " + SetVolumeValue(volume).volume == prefix + " " + NatToString(n) + "%" + "";
    ParseVolumeOf(prefix, n, "");
  }

  /** `toggle_mute`. */
  const ToggleMute: Request := SetSinkMute("toggle")

  /** `set_mute_state`. */
  function SetMuteState(muted: bool): (request: Request)
    ensures request.SetSinkMute? && (request.mute == "1" <==> muted)
  {
    SetSinkMute(if muted then "1" else "0")
  }

  /** The outcome of a request: an error unless `pactl` exited
      successfully. */
  function Outcome(run: ProcessOutput): (r: Result<(), string>)
    ensures r.Ok? <==> run.Exited? && run.success
  {
    if run.Exited? && run.success then Ok(()) else Err("pactl failed")
  }

  // ---------------------------------------------------------------------
  // Polling
  // ---------------------------------------------------------------------

  /** One poll as written: a reading whose volume differs by more than
      0.01 is passed to the `volume` property's setter, which refuses a
      value outside the property's declared range 0..1 and aborts. */
  function PollAsWritten(volume: real, muted: bool, reading: Result<(real, bool), string>): Result<(real, bool), string> {
    if reading.Err? then Ok((volume, muted))
    else
      var (v, m) := reading.value;
      if Abs(volume - v) > 0.01 && !(0.0 <= v <= 1.0) then Err("volume out of the property's range")
      else Ok((if Abs(volume - v) > 0.01 then v else volume, m))
  }

  /** A sink turned up to 150%, which `pactl` allows, aborts the poll. */
  lemma OverAmplifiedPollAborts()
    ensures var out := "Volume: front-left: 98304 / 150% / 10.57 dB";
      && ParseVolume(out) == 1.5
      && PollAsWritten(0.5, false, ReadCurrentState(Exited(true, out), Exited(true, "Mute: no"))).Err?
  {
    VolumeOf150();
  }

  /** A sink already at 150% when the service starts: the first reading is
      stored as 1.5, past the range check, and the poll as written, seeing
      no change, keeps it there; the corrected poll brings it into range. */
  lemma OverAmplifiedStartKept()
    ensures var reading := ReadCurrentState(Exited(true, "Volume: front-left: 98304 / 150% / 10.57 dB"), Exited(true, "Mute: no"));
      && reading.Ok? && reading.value.0 == 1.5
      && PollAsWritten(1.5, reading.value.1, reading) == Ok((1.5, reading.value.1))
      && Poll(1.5, reading.value.1, reading).0 == 1.0
  {
    VolumeOf150();
  }

  lemma VolumeOf150()
    ensures ParseVolume("Volume: front-left: 98304 / 150% / 10.57 dB") == 1.5
  {
    var prefix, rest := "Volume: front-left: 98304 /", " / 10.57 dB";
    assert NatToString(150) == "150" by {
      assert NatToString(15) == "15";
    }
    assert prefix + " " + "150" + "%" + rest == "Volume: front-left: 98304 / 150% / 10.57 dB";
    ParseVolumeOf(prefix, 150, rest);
  }

  function Abs(x: real): real {
    if x < 0.0 then -x else x
  }

  /** One poll with the reading clamped into the property's range first:
      a failed reading changes nothing; the volume follows the clamped
      reading when it differs by more than 0.01; the mute state follows the
      reading. */
  function Poll(volume: real, muted: bool, reading: Result<(real, bool), string>): (r: (real, bool))
    ensures 0.0 <= volume <= 1.0 ==> 0.0 <= r.0 <= 1.0
    ensures reading.Err? ==> r == (volume, muted)
    ensures reading.Ok? ==> r.1 == reading.value.1 && Abs(r.0 - FV.ClampUnit(reading.value.0)) <= 0.01
  {
    if reading.Err? then (volume, muted)
    else
      var v := FV.ClampUnit(reading.value.0);
      (if Abs(volume - v) > 0.01 then v else volume, reading.value.1)
  }

  /** The two polls agree whenever the reading is within range, and the
      corrected poll never aborts. */
  lemma PollAgrees(volume: real, muted: bool, reading: Result<(real, bool), string>)
    requires reading.Ok? ==> 0.0 <= reading.value.0 <= 1.0
    ensures PollAsWritten(volume, muted, reading) == Ok(Poll(volume, muted, reading))
  {
  }

  /** The service object. */
  class AudioServiceObject {
    var volume: real
    var muted: bool
    var available: bool
    var sinkName: string

    /** The volume lies in the range the property declares. The first
        reading is stored in the property's cell directly, past the range
        check, so this holds from the start only when that reading was in
        range; the corrected poll keeps it from then on. */
    ghost predicate Valid()
      reads this
    {
      0.0 <= volume <= 1.0
    }

    /** `constructed`: with a sink found, the service is available and
        takes the first reading as it is, out of range or not; without one
        it is unavailable with volume 0 and not muted. */
    constructor (getDefault: ProcessOutput, listShort: ProcessOutput, volumeRun: ProcessOutput, muteRun: ProcessOutput)
      ensures available <==> DetectDefaultSink(getDefault, listShort).Ok?
      ensures available ==> sinkName == DetectDefaultSink(getDefault, listShort).value
      ensures (volume, muted) ==
        if available && ReadCurrentState(volumeRun, muteRun).Ok?
        then ReadCurrentState(volumeRun, muteRun).value
        else (0.0, false)
    {
      volume := 0.0;
      muted := false;
      sinkName := "";
      var sink := DetectDefaultSink(getDefault, listShort);
      if sink.Ok? {
        sinkName := sink.value;
        available := true;
        var state := ReadCurrentState(volumeRun, muteRun);
        if state.Ok? {
          volume := state.value.0;
          muted := state.value.1;
        }
      } else {
        available := false;
      }
    }

    /** The half-second poll. */
    method PollOnce(volumeRun: ProcessOutput, muteRun: ProcessOutput)
      modifies this`volume, this`muted
      ensures old(Valid()) ==> Valid()
      ensures (volume, muted) == Poll(old(volume), old(muted), ReadCurrentState(volumeRun, muteRun))
    {
      var state := ReadCurrentState(volumeRun, muteRun);
      if state.Ok? {
        var (v, m) := state.value;
        v := FV.ClampUnit(v);
        if Abs(volume - v) > 0.01 {
          volume := v;
        }
        if muted != m {
          muted := m;
        }
      }
    }
  }
}
