/**
 * The scooter controller: the process-wide state of the firmware (the two
 * credential buffers, the last sample time, the relay log and the horn) as
 * one object, with the callback, the sampling steps, the power-mode
 * sequences and one pass of the Arduino loop as methods over it.
 */
module Scooter {
  import opened Wrappers
  import opened CStrings
  import opened Relay
  import opened Credentials
  import opened Battery
  import opened Ignition
  import opened PowerMode
  import opened Timing
  import opened Horn

  /** The variables handed to the environment variable manager's fetch. */
  const EnvVarList: seq<string> := ["wifi_ssid", "wifi_password"]

  /**
   * What one pass of loop() is given by the hardware, the clock and the
   * relay: clock readings, the callbacks the fetch makes, the ADC value,
   * whether each newRequest / newCommand / attached sub-object came back
   * non-null, the reply to card.aux, and the byte counts that the signal
   * reads return while the serial port has data.
   */
  datatype LoopInputs = LoopInputs(
    now: u32,
    env: seq<EnvUpdate>,
    adc: nat,
    sampledAt: u32,
    noteOk: bool, bodyOk: bool,
    auxOk: bool, pinsOk: bool, auxReply: Option<Value>,
    setOk: bool, syncOk: bool, attnOk: bool,
    signals: seq<ReadCount>)

  /** The note.add entry of a sampling cycle. */
  function NoteLog(inp: LoopInputs): (log: seq<Emitted>)
  {
    if inp.noteOk then [NoteAdd(Sample(inp.adc), inp.bodyOk)] else []
  }

  function IgnitionOn(inp: LoopInputs): (on: bool)
  {
    IgnitionState(inp.auxOk, inp.pinsOk, inp.auxReply)
  }

  function PowerLog(inp: LoopInputs): (log: seq<Emitted>)
  {
    if IgnitionOn(inp) then [] else SleepLog(inp.setOk, inp.syncOk, inp.attnOk)
  }

  /** Everything a sampling cycle sends, in order: fetch, card.wifi updates, note, ignition query, sleep. */
  function CycleLog(c: Creds, inp: LoopInputs): (log: seq<Emitted>)
    ensures |log| > 0 && log[0] == EnvFetch(EnvVarList)
    ensures IgnitionOn(inp) ==> log[|log| - 1] == AuxQuery
    ensures !IgnitionOn(inp) && inp.attnOk ==> log[|log| - 1] == SleepAttn
  {
    [EnvFetch(EnvVarList)] + ApplyAll(c, inp.env).1 + NoteLog(inp) + IgnitionLog(inp.auxOk, inp.pinsOk) + PowerLog(inp)
  }

  /**
   * The order of a sampling cycle when every request is built: the fetch,
   * one card.wifi per changed credential, the note, the ignition query, and
   * the three sleep requests exactly when the ignition reads off.
   */
  lemma {:induction false} CycleOrder(c: Creds, inp: LoopInputs)
    requires inp.noteOk && inp.auxOk && inp.pinsOk && inp.setOk && inp.syncOk && inp.attnOk
    ensures var log, k := CycleLog(c, inp), CountUpdates(c, inp.env);
      |log| == (if IgnitionOn(inp) then 3 + k else 6 + k) &&
      log[0] == EnvFetch(EnvVarList) &&
      (forall j :: 1 <= j < 1 + k ==> log[j].Sent? && log[j].name == "card.wifi") &&
      log[1 + k] == NoteAdd(Sample(inp.adc), inp.bodyOk) &&
      log[2 + k] == AuxQuery &&
      (!IgnitionOn(inp) ==> log[3 + k..] == [SleepHubSet, SleepSync, SleepAttn])
  {
    ApplyAllSendsOnePerChange(c, inp.env);
    PowerTail(inp);
    CycleSplit(c, inp);
    var w := ApplyAll(c, inp.env).1;
    var tail := [NoteAdd(Sample(inp.adc), inp.bodyOk), AuxQuery] + PowerLog(inp);
    HeadTail(w, tail);
    assert tail[2..] == PowerLog(inp);
  }

  /** Indexing into the fetch entry, then `w`, then `tail`. */
  lemma HeadTail(w: seq<Emitted>, tail: seq<Emitted>)
    ensures var log := [EnvFetch(EnvVarList)] + w + tail;
      |log| == 1 + |w| + |tail| &&
      log[0] == EnvFetch(EnvVarList) &&
      (forall j :: 1 <= j < 1 + |w| ==> log[j] == w[j - 1]) &&
      log[1 + |w|..] == tail
  {
  }

  /** With all three sleep requests built, the power tail is empty or the full sleep sequence. */
  lemma PowerTail(inp: LoopInputs)
    requires inp.setOk && inp.syncOk && inp.attnOk
    ensures PowerLog(inp) == if IgnitionOn(inp) then [] else [SleepHubSet, SleepSync, SleepAttn]
  {
  }

  /** A fully built cycle is the fetch and card.wifi head followed by the note, the query and the power tail. */
  lemma CycleSplit(c: Creds, inp: LoopInputs)
    requires inp.noteOk && inp.auxOk && inp.pinsOk
    ensures CycleLog(c, inp) ==
      ([EnvFetch(EnvVarList)] + ApplyAll(c, inp.env).1) + ([NoteAdd(Sample(inp.adc), inp.bodyOk), AuxQuery] + PowerLog(inp))
  {
    assert NoteLog(inp) + IgnitionLog(inp.auxOk, inp.pinsOk) == [NoteAdd(Sample(inp.adc), inp.bodyOk), AuxQuery];
  }

  /** mcuWake is never among what loop() sends: no cycle makes the relay continuous again. */
  lemma {:induction false} CycleNeverWakes(c: Creds, inp: LoopInputs)
    ensures WakeHubSet !in CycleLog(c, inp)
    ensures forall e :: e in CycleLog(c, inp) && e.Sent? && e.name == "hub.set" ==> e == SleepHubSet
  {
    ApplyAllSendsOnePerChange(c, inp.env);
    var log := CycleLog(c, inp);
    forall e | e in log && e.Sent? && e.name == "hub.set"
      ensures e == SleepHubSet
    {
      assert e in PowerLog(inp);
    }
  }

  /**
   * What a cycle leaves the relay configured for: unchanged while the
   * ignition is on, periodic at 15/15 when it is off and hub.set was built.
   */
  lemma {:induction false} CyclePowerMode(h: HubConfig, c: Creds, inp: LoopInputs)
    ensures IgnitionOn(inp) ==> Run(h, CycleLog(c, inp)) == h
    ensures !IgnitionOn(inp) && inp.setOk ==>
      var h' := Run(h, CycleLog(c, inp));
      h'.mode == Some("periodic") && h'.outbound == Some(15) && h'.inbound == Some(15)
  {
    ApplyAllSendsOnePerChange(c, inp.env);
    var pre := [EnvFetch(EnvVarList)] + ApplyAll(c, inp.env).1 + NoteLog(inp) + IgnitionLog(inp.auxOk, inp.pinsOk);
    assert CycleLog(c, inp) == pre + PowerLog(inp);
    RunOthers(h, pre);
    RunAppend(h, pre, PowerLog(inp));
    if !IgnitionOn(inp) && inp.setOk {
      SleepConfigures(h, inp.setOk, inp.syncOk, inp.attnOk);
    }
  }

  /** A cycle with a raw reading of 620 and no reply to card.aux: note {620, 40.0}, then sleep. */
  lemma EndToEndSleep(c: Creds)
    ensures CycleLog(c, LoopInputs(15001, [], 620, 15001, true, true, true, true, None, true, true, true, []))
         == [EnvFetch(EnvVarList), NoteAdd(SensorReadings(620, 40.0), true), AuxQuery, SleepHubSet, SleepSync, SleepAttn]
  {
  }

  lemma AppendFive<T>(s0: seq<T>, a: seq<T>, b: seq<T>, c: seq<T>, d: seq<T>, e: seq<T>)
    ensures s0 + a + b + c + d + e == s0 + (a + b + c + d + e)
  {
  }

  class Controller {
    var wifi_ssid: Option<CString>
    var wifi_password: Option<CString>
    var last_sample_ms: u32
    /** Every request handed to the relay, oldest first. */
    var sent: seq<Emitted>
    /** The horn pin level (true is HIGH). */
    var horn: bool
    /** Every write to the horn pin and every hold, oldest first. */
    var horn_trace: seq<HornEvent>

    function CurrentCreds(): (c: Creds)
      reads this
    {
      Creds(wifi_ssid, wifi_password)
    }

    /** The buffers hold at most 255 bytes and the horn rests LOW. */
    ghost predicate Valid()
      reads this
    {
      Credentials.Valid(CurrentCreds()) && !horn
    }

    /** The state before setup(): nothing stored, nothing sent, horn LOW. */
    constructor ()
      ensures Valid()
      ensures wifi_ssid == None && wifi_password == None && last_sample_ms == 0
      ensures sent == [] && !horn && horn_trace == []
    {
      wifi_ssid, wifi_password := None, None;
      last_sample_ms := 0;
      sent := [];
      horn, horn_trace := false, [];
    }

    /** strcmp(a, b) == 0 */
    static method StrCmp(a: CString, b: CString) returns (equal: bool)
      ensures equal <==> a == b
    {
      StrCmpEqualIsEqual(a, b);
      equal := StrCmpEqual(a, b);
    }

    /**
     * The block envVarManagerCb runs for either buffer: compare the first
     * 255 bytes, and on a difference pass the length guard and copy with
     * strlcpy(buf, val, strnlen(val, 255) + 1). The buffer is handed back.
     */
    static method ReplaceIfChanged(stored: Option<CString>, val: CString) returns (next: Option<CString>, changed: bool)
      ensures changed <==> Differs(stored, val)
      ensures next == if changed then Some(Truncate(val)) else stored
    {
      next, changed := stored, false;
      if stored.Some? {
        StrNCmpEqualIsPrefixEqual(stored.value, val, MaxLen);
      }
      if stored.None? || !StrNCmpEqual(stored.value, val, MaxLen) {
        NeverTooLong(val);
        if 256 < StrNLen(val, MaxLen) {
          next := None;
        } else {
          var len := StrNLen(val, MaxLen) + 1;
          StrLCpyIsPrefix(val, len);
          StrNLenIsMin(val, MaxLen);
          next := Some(StrLCpy(val, len));
          changed := true;
        }
      }
    }

    /** envVarManagerCb: one (name, value) pair from the fetch. */
    method EnvVarManagerCb(name: CString, val: CString, reqOk: bool)
      requires Valid()
      modifies this`wifi_ssid, this`wifi_password, this`sent
      ensures Valid()
      ensures CurrentCreds() == OnVariable(old(CurrentCreds()), name, val).creds
      ensures sent == old(sent) + WifiLog(old(CurrentCreds()), EnvUpdate(name, val, reqOk))
    {
      var update_wifi := false;
      var isSsid := StrCmp(name, SsidVar);
      var isPassword := StrCmp(name, PasswordVar);
      if isSsid {
        wifi_ssid, update_wifi := ReplaceIfChanged(wifi_ssid, val);
      } else if isPassword {
        wifi_password, update_wifi := ReplaceIfChanged(wifi_password, val);
      }
      if update_wifi && reqOk {
        sent := sent + [CardWifi(CurrentCreds())];
      }
    }

    /** NotecardEnvVarManager_fetch: the fetch itself, then the callback once per pair it delivers. */
    method FetchEnvVars(updates: seq<EnvUpdate>)
      requires Valid()
      modifies this`wifi_ssid, this`wifi_password, this`sent
      ensures Valid()
      ensures CurrentCreds() == ApplyAll(old(CurrentCreds()), updates).0
      ensures sent == old(sent) + [EnvFetch(EnvVarList)] + ApplyAll(old(CurrentCreds()), updates).1
    {
      sent := sent + [EnvFetch(EnvVarList)];
      for i := 0 to |updates|
        invariant Valid()
        invariant ApplyAll(CurrentCreds(), updates[i..]).0 == ApplyAll(old(CurrentCreds()), updates).0
        invariant sent + ApplyAll(CurrentCreds(), updates[i..]).1
               == old(sent) + [EnvFetch(EnvVarList)] + ApplyAll(old(CurrentCreds()), updates).1
      {
        assert updates[i..][1..] == updates[i + 1..];
        ghost var c, s := CurrentCreds(), sent;
        EnvVarManagerCb(updates[i].name, updates[i].val, updates[i].reqOk);
        ghost var rest := ApplyAll(CurrentCreds(), updates[i + 1..]);
        assert ApplyAll(c, updates[i..]) == (rest.0, WifiLog(c, updates[i]) + rest.1);
        assert sent + rest.1 == s + (WifiLog(c, updates[i]) + rest.1);
      }
    }

    /** sampleSensors: clamp the ADC value, compute the percentage, record the time. */
    method SampleSensors(adc: nat, now: u32) returns (readings: SensorReadings)
      modifies this`last_sample_ms
      ensures readings == Sample(adc)
      ensures last_sample_ms == now
    {
      var raw := adc;
      if raw < 500 {
        raw := 500;
      } else if raw > 800 {
        raw := 800;
      }
      readings := SensorReadings(raw, ((raw - 500) as real / 300.0) * 100.0);
      last_sample_ms := now;
    }

    /** queueReadingsToNotecard */
    method QueueReadingsToNotecard(readings: SensorReadings, reqOk: bool, bodyOk: bool) returns (status: int)
      modifies this`sent
      ensures sent == old(sent) + (if reqOk then [NoteAdd(readings, bodyOk)] else [])
      ensures status == 0
    {
      if reqOk {
        sent := sent + [NoteAdd(readings, bodyOk)];
      }
      status := 0;
    }

    /** ignition(): the card.aux query and its fail-safe reading. */
    method QueryIgnition(reqOk: bool, pinsOk: bool, rsp: Option<Value>) returns (ignition_state: bool)
      modifies this`sent
      ensures ignition_state == IgnitionState(reqOk, pinsOk, rsp)
      ensures sent == old(sent) + IgnitionLog(reqOk, pinsOk)
    {
      ignition_state := false;
      if reqOk && pinsOk {
        sent := sent + [AuxQuery];
        ignition_state := ParseIgnition(rsp);
      }
    }

    /** mcuSleep */
    method McuSleep(setOk: bool, syncOk: bool, attnOk: bool)
      modifies this`sent
      ensures sent == old(sent) + SleepLog(setOk, syncOk, attnOk)
    {
      if setOk {
        sent := sent + [SleepHubSet];
      }
      if syncOk {
        sent := sent + [SleepSync];
      }
      if attnOk {
        sent := sent + [SleepAttn];
      }
    }

    /** mcuWake (called once, from setup). */
    method McuWake(ok: bool) returns (status: int)
      modifies this`sent
      ensures sent == old(sent) + WakeLog(ok)
      ensures status == 0
    {
      if ok {
        sent := sent + [WakeHubSet];
      }
      status := 0;
    }

    /** The streaming signal drain: one processSignals read per pass while data is available. */
    method DrainSignals(counts: seq<ReadCount>)
      requires !horn
      modifies this`horn, this`horn_trace
      ensures !horn
      ensures horn_trace == old(horn_trace) + Pulses(counts)
    {
      for i := 0 to |counts|
        invariant !horn
        invariant horn_trace == old(horn_trace) + Pulses(counts[..i])
      {
        assert counts[..i + 1][..i] == counts[..i];
        var result := counts[i];
        if result != 0 {
          horn := true;
          horn_trace := horn_trace + [Drive(true)];
          horn_trace := horn_trace + [Hold(PulseMs)];
          horn := false;
          horn_trace := horn_trace + [Drive(false)];
        }
      }
      assert counts[..|counts|] == counts;
    }

    /** The body of loop()'s 15-second branch: fetch, sample, note, ignition, and sleep if the ignition is off. */
    method SamplingCycle(inp: LoopInputs)
      requires Valid()
      modifies this`wifi_ssid, this`wifi_password, this`sent, this`last_sample_ms
      ensures Valid()
      ensures last_sample_ms == inp.sampledAt
      ensures CurrentCreds() == ApplyAll(old(CurrentCreds()), inp.env).0
      ensures sent == old(sent) + CycleLog(old(CurrentCreds()), inp)
    {
      ghost var c0, s0 := CurrentCreds(), sent;
      FetchEnvVars(inp.env);
      ghost var s1 := sent;
      assert s1 == s0 + [EnvFetch(EnvVarList)] + ApplyAll(c0, inp.env).1;
      var readings := SampleSensors(inp.adc, inp.sampledAt);
      var _ := QueueReadingsToNotecard(readings, inp.noteOk, inp.bodyOk);
      ghost var s2 := sent;
      assert s2 == s1 + NoteLog(inp);
      var on := QueryIgnition(inp.auxOk, inp.pinsOk, inp.auxReply);
      ghost var s3 := sent;
      assert s3 == s2 + IgnitionLog(inp.auxOk, inp.pinsOk);
      assert on == IgnitionOn(inp);
      if !on {
        McuSleep(inp.setOk, inp.syncOk, inp.attnOk);
        assert sent == s3 + PowerLog(inp);
      } else {
        assert sent == s3 + PowerLog(inp);
      }
      AppendFive(s0, [EnvFetch(EnvVarList)], ApplyAll(c0, inp.env).1, NoteLog(inp),
                 IgnitionLog(inp.auxOk, inp.pinsOk), PowerLog(inp));
    }

    /** One pass of loop() with STREAM_SIGNALS defined. */
    method Loop(inp: LoopInputs)
      requires Valid()
      modifies this
      ensures Valid()
      ensures Due(inp.now, old(last_sample_ms)) ==>
        last_sample_ms == inp.sampledAt &&
        CurrentCreds() == ApplyAll(old(CurrentCreds()), inp.env).0 &&
        sent == old(sent) + CycleLog(old(CurrentCreds()), inp)
      ensures !Due(inp.now, old(last_sample_ms)) ==>
        last_sample_ms == old(last_sample_ms) && CurrentCreds() == old(CurrentCreds()) && sent == old(sent)
      ensures horn_trace == old(horn_trace) + Pulses(inp.signals)
    {
      if Elapsed(inp.now, last_sample_ms) as int > 15000 {
        SamplingCycle(inp);
      }
      DrainSignals(inp.signals);
    }
  }
}
