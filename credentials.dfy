/**
 * Wi-Fi credential sync: the environment variable callback keeps two
 * optional strings, wifi_ssid and wifi_password. Each call sees one
 * (name, value) pair; a value that is new, or differs from the stored one
 * within its first 255 bytes, replaces it (cut to 255 bytes) and sends its
 * own card.wifi request carrying both current credentials.
 */
module Credentials {
  import opened Wrappers
  import opened CStrings
  import opened Relay

  /** Bytes of a value that strncmp and strlcpy look at. */
  const MaxLen: nat := 255

  const SsidVar: CString := "wifi_ssid"
  const PasswordVar: CString := "wifi_password"

  datatype Creds = Creds(ssid: Option<CString>, password: Option<CString>)

  predicate Bounded(o: Option<CString>) { o.Some? ==> |o.value| <= MaxLen }

  /** Both stored values fit the 256-byte buffers. */
  predicate Valid(c: Creds) { Bounded(c.ssid) && Bounded(c.password) }

  /** What gets stored for a value: its first 255 bytes. */
  function Truncate(val: CString): (t: CString)
    ensures |t| <= MaxLen
  {
    Prefix(val, MaxLen)
  }

  /** Nothing stored yet, or the stored value differs from `val` in the first 255 bytes. */
  predicate Differs(stored: Option<CString>, val: CString)
  {
    stored.None? || Prefix(stored.value, MaxLen) != Prefix(val, MaxLen)
  }

  /** card.wifi with the current SSID and password; a credential not yet stored is a null string. */
  function CardWifi(c: Creds): (e: Emitted)
  {
    Sent(Request, "card.wifi", [Field("ssid", OptStr(c.ssid)), Field("password", OptStr(c.password))], Send)
  }

  /** The stored credentials after one callback, and whether it asks for a card.wifi update. */
  datatype Outcome = Outcome(creds: Creds, update: bool)

  function OnVariable(c: Creds, name: CString, val: CString): (o: Outcome)
    ensures o.update <==> o.creds != c
    ensures o.creds.ssid == c.ssid || o.creds.password == c.password
    ensures name != SsidVar && name != PasswordVar ==> o == Outcome(c, false)
  {
    if name == SsidVar then
      if Differs(c.ssid, val) then Outcome(c.(ssid := Some(Truncate(val))), true) else Outcome(c, false)
    else if name == PasswordVar then
      if Differs(c.password, val) then Outcome(c.(password := Some(Truncate(val))), true) else Outcome(c, false)
    else Outcome(c, false)
  }

  /** One callback invocation: the pair delivered, and whether newRequest("card.wifi") would succeed. */
  datatype EnvUpdate = EnvUpdate(name: CString, val: CString, reqOk: bool)

  /** The relay entries one callback appends. */
  function WifiLog(c: Creds, u: EnvUpdate): (log: seq<Emitted>)
    ensures |log| <= 1
    ensures log != [] ==> log == [CardWifi(OnVariable(c, u.name, u.val).creds)]
  {
    var o := OnVariable(c, u.name, u.val);
    if o.update && u.reqOk then [CardWifi(o.creds)] else []
  }

  /** A run of callbacks: the final credentials and every entry sent, in order. */
  function ApplyAll(c: Creds, us: seq<EnvUpdate>): (r: (Creds, seq<Emitted>))
    ensures |r.1| <= |us|
    ensures forall e :: e in r.1 ==> e.Sent? && e.name == "card.wifi" && e.via == Send
    decreases |us|
  {
    if us == [] then (c, [])
    else
      var next := OnVariable(c, us[0].name, us[0].val).creds;
      var rest := ApplyAll(next, us[1..]);
      (rest.0, WifiLog(c, us[0]) + rest.1)
  }

  /** Cutting twice is cutting once. */
  lemma TruncateIdempotent(val: CString)
    ensures Prefix(Truncate(val), MaxLen) == Truncate(val)
    ensures !Differs(Some(Truncate(val)), val)
  {
  }

  /** The too-long guard, 256 < strnlen(val, 255), never holds: no value is rejected for length. */
  lemma NeverTooLong(val: CString)
    ensures !(256 < StrNLen(val, MaxLen))
  {
    StrNLenIsMin(val, MaxLen);
  }

  /** A recognised, changed value is stored cut to 255 bytes; the other credential is untouched. */
  lemma ChangedIsStored(c: Creds, name: CString, val: CString)
    requires name == SsidVar || name == PasswordVar
    requires Differs(if name == SsidVar then c.ssid else c.password, val)
    ensures var o := OnVariable(c, name, val);
      o.update &&
      (if name == SsidVar then o.creds.ssid else o.creds.password) == Some(Truncate(val)) &&
      (if name == SsidVar then o.creds.password == c.password else o.creds.ssid == c.ssid)
    ensures |Truncate(val)| == if |val| < MaxLen then |val| else MaxLen
    ensures val == Truncate(val) + val[|Truncate(val)|..]
  {
  }

  /** An unchanged value or an unknown name leaves everything as it was and asks for no update. */
  lemma UnchangedIsNoop(c: Creds, name: CString, val: CString)
    requires !(name == SsidVar && Differs(c.ssid, val))
    requires !(name == PasswordVar && Differs(c.password, val))
    ensures OnVariable(c, name, val) == Outcome(c, false)
  {
  }

  /** Delivering the same pair again changes nothing and sends nothing. */
  lemma OnVariableIdempotent(c: Creds, name: CString, val: CString)
    ensures var o := OnVariable(c, name, val);
      OnVariable(o.creds, name, val) == Outcome(o.creds, false)
  {
    TruncateIdempotent(val);
  }

  lemma OnVariableKeepsValid(c: Creds, name: CString, val: CString)
    requires Valid(c)
    ensures Valid(OnVariable(c, name, val).creds)
  {
  }

  function CountUpdates(c: Creds, us: seq<EnvUpdate>): (n: nat)
    decreases |us|
  {
    if us == [] then 0
    else
      var o := OnVariable(c, us[0].name, us[0].val);
      (if o.update && us[0].reqOk then 1 else 0) + CountUpdates(o.creds, us[1..])
  }

  /** Every card.wifi sent is one changed value: one request per change, never a combined one. */
  lemma {:induction false} ApplyAllSendsOnePerChange(c: Creds, us: seq<EnvUpdate>)
    ensures |ApplyAll(c, us).1| == CountUpdates(c, us) <= |us|
    ensures forall e :: e in ApplyAll(c, us).1 ==> e.Sent? && e.name == "card.wifi"
    decreases |us|
  {
    if us != [] {
      ApplyAllSendsOnePerChange(OnVariable(c, us[0].name, us[0].val).creds, us[1..]);
    }
  }

  lemma {:induction false} ApplyAllKeepsValid(c: Creds, us: seq<EnvUpdate>)
    requires Valid(c)
    ensures Valid(ApplyAll(c, us).0)
    decreases |us|
  {
    if us != [] {
      OnVariableKeepsValid(c, us[0].name, us[0].val);
      ApplyAllKeepsValid(OnVariable(c, us[0].name, us[0].val).creds, us[1..]);
    }
  }

  /**
   * A first fetch delivering both credentials sends two card.wifi requests;
   * the first goes out before the password is known.
   */
  lemma FirstFetchSendsTwo()
    ensures ApplyAll(Creds(None, None),
                     [EnvUpdate(SsidVar, "CES2023", true), EnvUpdate(PasswordVar, "xxxxxxxx", true)])
         == (Creds(Some("CES2023"), Some("xxxxxxxx")),
             [CardWifi(Creds(Some("CES2023"), None)), CardWifi(Creds(Some("CES2023"), Some("xxxxxxxx")))])
  {
    var u1 := EnvUpdate(SsidVar, "CES2023", true);
    var u2 := EnvUpdate(PasswordVar, "xxxxxxxx", true);
    var c0, c1, c2 := Creds(None, None), Creds(Some("CES2023"), None), Creds(Some("CES2023"), Some("xxxxxxxx"));
    assert Truncate("CES2023") == "CES2023";
    assert Truncate("xxxxxxxx") == "xxxxxxxx";
    assert PasswordVar[5] != SsidVar[5];
    assert OnVariable(c0, u1.name, u1.val) == Outcome(c1, true);
    assert OnVariable(c1, u2.name, u2.val) == Outcome(c2, true);
    assert WifiLog(c0, u1) == [CardWifi(c1)];
    assert WifiLog(c1, u2) == [CardWifi(c2)];
    assert [u2][1..] == [];
    assert ApplyAll(c2, [u2][1..]) == (c2, []);
    assert WifiLog(c1, u2) + [] == [CardWifi(c2)];
    assert ApplyAll(c1, [u2]) == (c2, [CardWifi(c2)]);
    assert [u1, u2][1..] == [u2];
    assert ApplyAll(c0, [u1, u2]) == (c2, WifiLog(c0, u1) + [CardWifi(c2)]);
    assert WifiLog(c0, u1) + [CardWifi(c2)] == [CardWifi(c1), CardWifi(c2)];
  }
}
