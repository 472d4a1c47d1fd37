/** The shared brightness state and its backlight watcher. The state holds
    the last brightness fraction, if any; the watcher finds the first
    backlight interface, reads its maximum and current raw values, and then
    re-reads the current value on every close-after-write of the brightness
    file, sending each fraction to the state. Files are inputs: `None` is a
    file that cannot be read. */
module Brightness {
  import opened Wrappers
  import opened RustText
  import opened FloatValues

  /** `reduce`: the new state and whether it changed. The state changes,
      and subscribers are told, unless it already holds an equal value. */
  function Reduced(state: Option<F64>, input: F64): (Option<F64>, bool) {
    if state.Some? && IeeeEq(state.value, input) then (state, false) else (Some(input), true)
  }

  /** After a reduce the state holds the input; it reports a change exactly
      when the old state was not equal to it; repeating a value changes
      nothing, except that not-a-number, equal to nothing, always counts as
      a change. */
  lemma ReduceRules(state: Option<F64>, input: F64)
    ensures Reduced(state, input).0 == Some(input)
    ensures Reduced(state, input).1 <==> !(state.Some? && IeeeEq(state.value, input))
    ensures !input.NotANumber? ==> Reduced(Reduced(state, input).0, input) == (Some(input), false)
    ensures input.NotANumber? ==> Reduced(state, input).1
  {
  }

  /** The state after each value in turn. */
  function ReduceAll(state: Option<F64>, inputs: seq<F64>): Option<F64>
    decreases |inputs|
  {
    if inputs == [] then state else ReduceAll(Reduced(state, inputs[0]).0, inputs[1..])
  }

  /** The state ends at the last value sent, or stays as it was when nothing
      is sent. */
  lemma {:induction false} ReduceAllLast(state: Option<F64>, inputs: seq<F64>)
    ensures ReduceAll(state, inputs) == if inputs == [] then state else Some(inputs[|inputs| - 1])
    decreases |inputs|
  {
    if inputs != [] {
      ReduceAllLast(Reduced(state, inputs[0]).0, inputs[1..]);
      ReduceRules(state, inputs[0]);
    }
  }

  lemma {:induction false} ReduceAllAppend(state: Option<F64>, a: seq<F64>, b: seq<F64>)
    ensures ReduceAll(state, a + b) == ReduceAll(ReduceAll(state, a), b)
    decreases |a|
  {
    if a != [] {
      assert (a + b)[0] == a[0] && (a + b)[1..] == a[1..] + b;
      ReduceAllAppend(Reduced(state, a[0]).0, a[1..], b);
    } else {
      assert a + b == b;
    }
  }

  class BrightnessState {
    var level: Option<F64>

    /** `init`: nothing known yet. */
    constructor ()
      ensures level == None
    {
      level := None;
    }

    method Reduce(input: F64) returns (changed: bool)
      modifies this
      ensures (level, changed) == Reduced(old(level), input)
    {
      if level.Some? && level.value == input && !input.NotANumber? {
        changed := false;
      } else {
        level := Some(input);
        changed := true;
      }
    }
  }

  /** `detect_interface`: the name of the first entry of
      `/sys/class/backlight`; `None` for the directory is one that cannot be
      listed, `None` for an entry one that cannot be read. */
  function DetectInterface(dir: Option<seq<Option<string>>>): (r: Result<string, string>)
    ensures r.Ok? <==> dir.Some? && |dir.value| > 0 && dir.value[0].Some?
  {
    if dir.None? then Err("cannot read /sys/class/backlight")
    else if dir.value == [] then Err("no backlight interface found")
    else if dir.value[0].None? then Err("cannot read directory entry")
    else Ok(dir.value[0].value)
  }

  /** `read_max_brightness`: the file's trimmed contents as a `u32`. */
  function ReadMaxBrightness(file: Option<string>): (r: Result<nat, string>)
    ensures r.Ok? <==> file.Some? && ParseU32(Trim(file.value)).Some?
  {
    if file.None? then Err("cannot read max_brightness")
    else match ParseU32(Trim(file.value))
      case None => Err("invalid max_brightness")
      case Some(v) => Ok(v)
  }

  /** `read_current_brightness_percentage`: the raw value over the
      maximum. */
  function ReadFraction(file: Option<string>, maxValue: nat): (r: Result<F64, string>)
    ensures r.Ok? <==> file.Some? && ParseU32(Trim(file.value)).Some?
    ensures r.Ok? ==> r.value == DivNat(ParseU32(Trim(file.value)).value, maxValue)
  {
    if file.None? then Err("cannot read brightness")
    else match ParseU32(Trim(file.value))
      case None => Err("invalid brightness")
      case Some(raw) => Ok(DivNat(raw, maxValue))
  }

  /** With a positive maximum the fraction is finite, and lies in 0 to 1
      when the raw value does not exceed the maximum; a maximum of 0 gives
      no finite fraction. */
  lemma FractionRules(raw: nat, maxValue: nat)
    ensures maxValue > 0 ==> DivNat(raw, maxValue).Finite?
    ensures maxValue > 0 && raw <= maxValue ==> 0.0 <= DivNat(raw, maxValue).value <= 1.0
    ensures maxValue == 0 ==> !DivNat(raw, maxValue).Finite?
  {
  }

  /** The fractions of the reads that succeed, in order. */
  function SuccessfulReads(files: seq<Option<string>>, maxValue: nat): seq<F64> {
    Oks(seq(|files|, i requires 0 <= i < |files| => ReadFraction(files[i], maxValue)))
  }

  /** The values of the successes, in order. */
  function Oks<T>(results: seq<Result<T, string>>): seq<T> {
    if results == [] then []
    else (if results[0].Ok? then [results[0].value] else []) + Oks(results[1..])
  }

  lemma {:induction false} OksAppend<T>(results: seq<Result<T, string>>, r: Result<T, string>)
    ensures Oks(results + [r]) == Oks(results) + (if r.Ok? then [r.value] else [])
  {
    if results != [] {
      assert (results + [r])[1..] == results[1..] + [r];
      OksAppend(results[1..], r);
    } else {
      assert [r][1..] == [];
    }
  }

  /** What the watcher sends: nothing unless the interface, maximum and
      first read all succeed; then the first fraction and, when the watch
      could be set up, one fraction per event whose read succeeds. */
  function Sent(dir: Option<seq<Option<string>>>, maxFile: Option<string>, firstRead: Option<string>,
                watching: bool, eventReads: seq<Option<string>>): seq<F64> {
    if DetectInterface(dir).Err? || ReadMaxBrightness(maxFile).Err? then []
    else
      var maxValue := ReadMaxBrightness(maxFile).value;
      match ReadFraction(firstRead, maxValue)
      case Err(_) => []
      case Ok(first) => [first] + (if watching then SuccessfulReads(eventReads, maxValue) else [])
  }

  /** `start_brightness_watcher`, given the file contents it will see in
      turn: the first read and then one read per event until the event
      stream ends. */
  method StartWatcher(state: BrightnessState, dir: Option<seq<Option<string>>>, maxFile: Option<string>,
                      firstRead: Option<string>, watching: bool, eventReads: seq<Option<string>>)
    modifies state
    ensures state.level == ReduceAll(old(state.level), Sent(dir, maxFile, firstRead, watching, eventReads))
  {
    var iface := DetectInterface(dir);
    var maxValue := ReadMaxBrightness(maxFile);
    if iface.Err? || maxValue.Err? {
      return;
    }
    var first := ReadFraction(firstRead, maxValue.value);
    if first.Err? {
      return;
    }
    SentAfterFirstRead(dir, maxFile, firstRead, watching, eventReads);
    ghost var start := state.level;
    var _ := state.Reduce(first.value);
    ReduceAllOne(start, first.value);
    if watching {
      WatchEvents(state, maxValue.value, eventReads);
      ReduceAllAppend(start, [first.value], SuccessfulReads(eventReads, maxValue.value));
    } else {
      assert [first.value] + [] == [first.value];
    }
  }

  /** Once the first read succeeds, it is sent first, followed by the
      event reads when the watch is set up. */
  lemma SentAfterFirstRead(dir: Option<seq<Option<string>>>, maxFile: Option<string>, firstRead: Option<string>,
                           watching: bool, eventReads: seq<Option<string>>)
    requires DetectInterface(dir).Ok? && ReadMaxBrightness(maxFile).Ok?
    requires ReadFraction(firstRead, ReadMaxBrightness(maxFile).value).Ok?
    ensures var maxValue := ReadMaxBrightness(maxFile).value;
      Sent(dir, maxFile, firstRead, watching, eventReads)
      == [ReadFraction(firstRead, maxValue).value] + (if watching then SuccessfulReads(eventReads, maxValue) else [])
  {
  }

  /** The event loop: each event re-reads the brightness file and sends the
      fraction when the read succeeds. */
  method WatchEvents(state: BrightnessState, maxValue: nat, eventReads: seq<Option<string>>)
    modifies state
    ensures state.level == ReduceAll(old(state.level), SuccessfulReads(eventReads, maxValue))
  {
    ghost var start := state.level;
    var i := 0;
    while i < |eventReads|
      invariant 0 <= i <= |eventReads|
      invariant state.level == ReduceAll(start, SuccessfulReads(eventReads[..i], maxValue))
    {
      SuccessfulReadsAppend(eventReads[..i], eventReads[i], maxValue);
      assert eventReads[..i + 1] == eventReads[..i] + [eventReads[i]];
      ghost var done := SuccessfulReads(eventReads[..i], maxValue);
      var read := ReadFraction(eventReads[i], maxValue);
      if read.Ok? {
        var _ := state.Reduce(read.value);
        ReduceAllAppend(start, done, [read.value]);
        assert [read.value][1..] == [];
      } else {
        assert done + [] == done;
      }
      i := i + 1;
    }
    assert eventReads[..|eventReads|] == eventReads;
  }

  lemma {:induction false} SuccessfulReadsAppend(files: seq<Option<string>>, read: Option<string>, maxValue: nat)
    ensures SuccessfulReads(files + [read], maxValue) ==
      SuccessfulReads(files, maxValue) + (if ReadFraction(read, maxValue).Ok? then [ReadFraction(read, maxValue).value] else [])
  {
    var results := seq(|files|, i requires 0 <= i < |files| => ReadFraction(files[i], maxValue));
    assert seq(|files + [read]|, i requires 0 <= i < |files + [read]| => ReadFraction((files + [read])[i], maxValue))
      == results + [ReadFraction(read, maxValue)];
    OksAppend(results, ReadFraction(read, maxValue));
  }

  lemma ReduceAllOne(state: Option<F64>, input: F64)
    ensures ReduceAll(state, [input]) == Reduced(state, input).0
  {
    assert [input][1..] == [];
  }

  /** Once the watcher has run, the state holds the fraction of the last
      successful read, or is unchanged when the start-up reads fail. */
  lemma WatcherEndsAtLastRead(state: Option<F64>, dir: Option<seq<Option<string>>>, maxFile: Option<string>,
                              firstRead: Option<string>, watching: bool, eventReads: seq<Option<string>>)
    ensures var sent := Sent(dir, maxFile, firstRead, watching, eventReads);
      && (sent == [] ==> ReduceAll(state, sent) == state)
      && (sent != [] ==> ReduceAll(state, sent) == Some(sent[|sent| - 1]))
      && (sent != [] <==> DetectInterface(dir).Ok? && ReadMaxBrightness(maxFile).Ok?
                          && ReadFraction(firstRead, ReadMaxBrightness(maxFile).value).Ok?)
  {
    ReduceAllLast(state, Sent(dir, maxFile, firstRead, watching, eventReads));
  }
}
