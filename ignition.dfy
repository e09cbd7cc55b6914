/**
 * The ignition query: a card.aux GPIO request whose reply is walked
 * fail-safe; anything missing or of the wrong type reads as "off".
 */
module Ignition {
  import opened Wrappers
  import opened Relay

  /** card.aux in gpio mode: AUX1 an input, AUX2..AUX4 unused. */
  const AuxQuery: Emitted :=
    Sent(Request, "card.aux",
         [Field("mode", Str("gpio")),
          Field("usage", Arr([Str("input"), Str("off"), Str("off"), Str("off")]))],
         Transact)

  /** Where the AUX1 level sits in the reply. */
  const HighPath: seq<Step> := [Key("state"), Index(0), Key("high")]

  /**
   * The nested walk over the reply of requestAndResponse (`None` when it
   * returned null): state, is it an array, element 0, high, JIsTrue.
   */
  function ParseIgnition(rsp: Option<Value>): (on: bool)
    ensures on <==> rsp.Some? && At(rsp.value, HighPath) == Some(Bool(true))
  {
    match rsp
    case None => false
    case Some(r) =>
      match Member(r, "state")
      case None => false
      case Some(stateArray) =>
        if !stateArray.Arr? then false
        else
          match Item(stateArray, 0)
          case None => false
          case Some(aux1) =>
            match Member(aux1, "high")
            case None => false
            case Some(state) => state == Bool(true)
  }

  /**
   * The whole of ignition(): the request must have been built (`reqOk`),
   * its usage array attached (`pinsOk`) and a reply returned.
   */
  function IgnitionState(reqOk: bool, pinsOk: bool, rsp: Option<Value>): (on: bool)
    ensures on <==> reqOk && pinsOk && rsp.Some? && At(rsp.value, HighPath) == Some(Bool(true))
  {
    reqOk && pinsOk && ParseIgnition(rsp)
  }

  /** Only the request that was built and given its pins reaches the relay. */
  function IgnitionLog(reqOk: bool, pinsOk: bool): (log: seq<Emitted>)
    ensures log != [] <==> reqOk && pinsOk
    ensures log != [] ==> log == [AuxQuery]
    ensures log != [] ==>
      log[0].via == Transact &&
      At(Obj(log[0].fields), [Key("mode")]) == Some(Str("gpio")) &&
      At(Obj(log[0].fields), [Key("usage")]) == Some(Arr([Str("input"), Str("off"), Str("off"), Str("off")]))
  {
    if reqOk && pinsOk then [AuxQuery] else []
  }

  /** A "state" that is an object is refused even though JGetArrayItem would find a member in it. */
  lemma StateObjectIsOff()
    ensures !ParseIgnition(Some(Obj([Field("state", Obj([Field("aux1", Obj([Field("high", Bool(true))]))]))])))
  {
  }

  /** A "high" that is present but not the literal true (here the number 1) reads as off. */
  lemma MistypedHighIsOff()
    ensures !ParseIgnition(Some(Obj([Field("state", Arr([Obj([Field("high", Int(1))])]))])))
  {
  }

  /** The well-formed "on" reply, with extra members around it. */
  lemma HighReplyIsOn()
    ensures ParseIgnition(Some(Obj([Field("mode", Str("gpio")),
                                    Field("state", Arr([Obj([Field("low", Bool(false)), Field("high", Bool(true))]),
                                                        Obj([])]))])))
  {
  }
}
