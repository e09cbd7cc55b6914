/**
 * The power-mode request sequences, mcuSleep and mcuWake, and a reading of
 * what their hub.set and card.attn fields configure on the relay.
 */
module PowerMode {
  import opened Wrappers
  import opened Relay

  /** hub.set {mode: periodic, outbound: 15, inbound: 15}, sent with a 5-second retry. */
  const SleepHubSet: Emitted :=
    Sent(Request, "hub.set", [Field("mode", Str("periodic")), Field("outbound", Int(15)), Field("inbound", Int(15))],
         SendWithRetry(5))

  /** hub.sync {allow: true}: flush what is queued. */
  const SleepSync: Emitted := Sent(Request, "hub.sync", [Field("allow", Bool(true))], Send)

  /** card.attn {mode: "rearm,auxgpio"} as a command: wake the host again on the AUX GPIO. */
  const SleepAttn: Emitted := Sent(Command, "card.attn", [Field("mode", Str("rearm,auxgpio"))], Send)

  /** hub.set {mode: continuous, sync: true}. */
  const WakeHubSet: Emitted := Sent(Request, "hub.set", [Field("mode", Str("continuous")), Field("sync", Bool(true))], Send)

  /** mcuSleep: the three requests, each only if newRequest / newCommand returned one. */
  function SleepLog(setOk: bool, syncOk: bool, attnOk: bool): (log: seq<Emitted>)
    ensures |log| == (if setOk then 1 else 0) + (if syncOk then 1 else 0) + (if attnOk then 1 else 0)
    ensures setOk ==> log[0] == SleepHubSet
    ensures syncOk ==> log[if setOk then 1 else 0] == SleepSync
    ensures attnOk ==> log[|log| - 1] == SleepAttn
  {
    (if setOk then [SleepHubSet] else []) + (if syncOk then [SleepSync] else []) + (if attnOk then [SleepAttn] else [])
  }

  /** mcuWake: one request. */
  function WakeLog(ok: bool): (log: seq<Emitted>)
    ensures log != [] <==> ok
    ensures |log| <= 1
    ensures forall e :: e in log ==>
      e.Sent? && e.name == "hub.set" && At(Obj(e.fields), [Key("mode")]) == Some(Str("continuous"))
  {
    if ok then [WakeHubSet] else []
  }

  /** The relay settings these requests touch. */
  datatype HubConfig = HubConfig(mode: Option<string>, outbound: Option<int>, inbound: Option<int>,
                                 sync: Option<bool>, attn: Option<string>)

  /** hub.set fields overwrite the settings they name. */
  function SetFields(h: HubConfig, fs: seq<Field>): (h': HubConfig)
    decreases |fs|
  {
    if fs == [] then h
    else
      var f := fs[0];
      var h' :=
        if f.key == "mode" && f.value.Str? then h.(mode := Some(f.value.s))
        else if f.key == "outbound" && f.value.Int? then h.(outbound := Some(f.value.i))
        else if f.key == "inbound" && f.value.Int? then h.(inbound := Some(f.value.i))
        else if f.key == "sync" && f.value.Bool? then h.(sync := Some(f.value.b))
        else h;
      SetFields(h', fs[1..])
  }

  /** The settings after one log entry: only hub.set and card.attn change them. */
  function Effect(h: HubConfig, e: Emitted): (h': HubConfig)
  {
    if e.Sent? && e.name == "hub.set" then SetFields(h, e.fields)
    else if e.Sent? && e.name == "card.attn" && |e.fields| > 0 && e.fields[0].key == "mode" && e.fields[0].value.Str? then
      h.(attn := Some(e.fields[0].value.s))
    else h
  }

  function Run(h: HubConfig, log: seq<Emitted>): (h': HubConfig)
    decreases |log|
  {
    if log == [] then h else Run(Effect(h, log[0]), log[1..])
  }

  lemma {:induction false} RunAppend(h: HubConfig, a: seq<Emitted>, b: seq<Emitted>)
    ensures Run(h, a + b) == Run(Run(h, a), b)
    decreases |a|
  {
    if a != [] {
      assert (a + b)[1..] == a[1..] + b;
      RunAppend(Effect(h, a[0]), a[1..], b);
    } else {
      assert a + b == b;
    }
  }

  /** Entries that are neither hub.set nor card.attn leave the settings alone. */
  lemma {:induction false} RunOthers(h: HubConfig, log: seq<Emitted>)
    requires forall e :: e in log ==> !(e.Sent? && (e.name == "hub.set" || e.name == "card.attn"))
    ensures Run(h, log) == h
    decreases |log|
  {
    if log != [] {
      assert log[0] in log;
      assert forall e :: e in log[1..] ==> e in log;
      RunOthers(h, log[1..]);
    }
  }

  /** After mcuSleep (with hub.set built) the relay is periodic at 15/15, re-armed for the AUX GPIO if card.attn went out. */
  lemma SleepConfigures(h: HubConfig, setOk: bool, syncOk: bool, attnOk: bool)
    requires setOk
    ensures var h' := Run(h, SleepLog(setOk, syncOk, attnOk));
      h'.mode == Some("periodic") && h'.outbound == Some(15) && h'.inbound == Some(15) &&
      h'.sync == h.sync && h'.attn == (if attnOk then Some("rearm,auxgpio") else h.attn)
  {
    RunAppend(h, [SleepHubSet], (if syncOk then [SleepSync] else []) + (if attnOk then [SleepAttn] else []));
    var h1 := Run(h, [SleepHubSet]);
    assert h1 == h.(mode := Some("periodic"), outbound := Some(15), inbound := Some(15));
    RunAppend(h1, if syncOk then [SleepSync] else [], if attnOk then [SleepAttn] else []);
  }

  /** mcuSleep issued twice configures what it configures once: it is safe to repeat every idle cycle. */
  lemma SleepIdempotent(h: HubConfig, setOk: bool, syncOk: bool, attnOk: bool)
    ensures var once := Run(h, SleepLog(setOk, syncOk, attnOk));
      Run(once, SleepLog(setOk, syncOk, attnOk)) == once
  {
    var tail := (if syncOk then [SleepSync] else []) + (if attnOk then [SleepAttn] else []);
    var s := SleepLog(setOk, syncOk, attnOk);
    var once := Run(h, s);
    RunAppend(h, if setOk then [SleepHubSet] else [], tail);
    RunAppend(once, if setOk then [SleepHubSet] else [], tail);
    var h1 := Run(h, if setOk then [SleepHubSet] else []);
    RunAppend(h1, if syncOk then [SleepSync] else [], if attnOk then [SleepAttn] else []);
    var o1 := Run(once, if setOk then [SleepHubSet] else []);
    RunAppend(o1, if syncOk then [SleepSync] else [], if attnOk then [SleepAttn] else []);
  }

  /** mcuWake makes the relay continuous and synced. */
  lemma WakeConfigures(h: HubConfig)
    ensures var h' := Run(h, WakeLog(true));
      h'.mode == Some("continuous") && h'.sync == Some(true) &&
      h'.outbound == h.outbound && h'.inbound == h.inbound && h'.attn == h.attn
  {
  }
}
