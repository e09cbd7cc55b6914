/**
 * The inbound SMS handler of the Twilio function: a message containing the
 * motor scooter emoji asks Notehub to signal the scooter; otherwise a
 * message containing "test" gets a greeting, and anything else a shrug.
 * The Notehub POST is an outcome given to the handler.
 */
module SmsSignal {
  import opened Wrappers

  /** U+1F6F5 MOTOR SCOOTER */
  const ScooterEmoji: char := '\U{1F6F5}'

  const NotehubUrl: string := "https://api.notefile.net"
  const Product: string := "com.blues.ces"
  const Device: string := "dev:860322068096251"
  const SignalReq: string := "hub.device.signal"

  const SignalReply: string := "Check out what Blues can do for you at https://blues.com"
  const TestReply: string := "Hello there!"
  const UnknownReply: string := "Not sure what you meant!?"

  /** The POST to Notehub; its body object is always empty. */
  datatype Post = Post(url: string, product: string, device: string, req: string, body: seq<(string, string)>)

  const SignalPost: Post := Post(NotehubUrl, Product, Device, SignalReq, [])

  /** How the POST ended: resolved, or rejected with an error. */
  datatype PostOutcome = Posted | PostFailed(error: string)

  /** callback(error, twiml): `replies` are the messages of the MessagingResponse, when one is passed. */
  datatype Callback = Callback(error: Option<string>, replies: Option<seq<string>>)

  /** Everything the handler does to the outside: the POSTs made and the callback invocations. */
  datatype Handled = Handled(posts: seq<Post>, callbacks: seq<Callback>)

  /** toLowerCase on one character, for the ASCII letters. */
  function LowerChar(c: char): (l: char)
    ensures l == c <==> !('A' <= c <= 'Z')
    ensures 'A' <= c <= 'Z' ==> l as int == c as int + 32
  {
    if 'A' <= c <= 'Z' then (c as int + 32) as char else c
  }

  function Lower(s: string): (r: string)
    ensures |r| == |s|
    ensures forall i :: 0 <= i < |s| ==> r[i] == LowerChar(s[i])
  {
    if s == [] then [] else [LowerChar(s[0])] + Lower(s[1..])
  }

  /** String.prototype.includes */
  predicate Includes(s: string, t: string)
    ensures Includes(s, t) ==> |t| <= |s|
    ensures t == [] ==> Includes(s, t)
    decreases |s|
  {
    if |t| > |s| then false else s[..|t|] == t || Includes(s[1..], t)
  }

  /** `t` occurs in `s` starting at position `i`. */
  predicate OccursAt(s: string, t: string, i: nat)
  {
    i + |t| <= |s| && s[i..i + |t|] == t
  }

  /** `includes` finds `t` at some position of `s`, and only then. */
  lemma {:induction false} IncludesAt(s: string, t: string)
    ensures Includes(s, t) <==> exists i: nat :: OccursAt(s, t, i)
    decreases |s|
  {
    if |t| <= |s| && s[..|t|] != t {
      IncludesAt(s[1..], t);
      if Includes(s[1..], t) {
        var i: nat :| OccursAt(s[1..], t, i);
        assert s[i + 1..i + 1 + |t|] == s[1..][i..i + |t|];
        assert OccursAt(s, t, i + 1);
      }
      if exists i: nat :: OccursAt(s, t, i) {
        var i: nat :| OccursAt(s, t, i);
        assert i != 0;
        assert s[1..][i - 1..i - 1 + |t|] == s[i..i + |t|];
        assert OccursAt(s[1..], t, i - 1);
      }
    } else if |t| <= |s| {
      assert OccursAt(s, t, 0);
    } else {
      assert forall i: nat :: !OccursAt(s, t, i);
    }
  }

  /** Lowercasing neither creates nor removes the emoji, so the check sees it in any message that has it. */
  lemma EmojiSurvivesLower(s: string)
    ensures Includes(Lower(s), [ScooterEmoji]) <==> ScooterEmoji in s
  {
  }

  /** exports.handler */
  function Handler(body: string, post: PostOutcome): (h: Handled)
    ensures |h.callbacks| == 1
    ensures |h.posts| <= 1 && (h.posts != [] ==> h.posts == [SignalPost])
    ensures h.callbacks[0].error.Some? <==> h.posts != [] && post.PostFailed?
    ensures h.callbacks[0].error.Some? ==> h.callbacks[0] == Callback(Some(post.error), None)
    ensures h.callbacks[0].error.None? ==> exists m :: h.callbacks[0].replies == Some([m])
  {
    var incomingMessage := Lower(body);
    if Includes(incomingMessage, [ScooterEmoji]) then
      match post
      case Posted => Handled([SignalPost], [Callback(None, Some([SignalReply]))])
      case PostFailed(error) => Handled([SignalPost], [Callback(Some(error), None)])
    else if Includes(incomingMessage, "test") then
      Handled([], [Callback(None, Some([TestReply]))])
    else
      Handled([], [Callback(None, Some([UnknownReply]))])
  }

  /**
   * A message with the emoji makes exactly one signal POST, whatever else it
   * says (a "test" in it included); the reply is the Blues message, or the
   * error is passed on with no reply.
   */
  lemma EmojiSignals(body: string, post: PostOutcome)
    requires ScooterEmoji in body
    ensures Handler(body, post).posts == [SignalPost]
    ensures Handler(body, post).callbacks ==
      if post.Posted? then [Callback(None, Some([SignalReply]))] else [Callback(Some(post.error), None)]
  {
    EmojiSurvivesLower(body);
  }

  /** Without the emoji, a "test" in any letter case gets the greeting and no POST. */
  lemma TestGreets(body: string, post: PostOutcome)
    requires ScooterEmoji !in body
    requires Includes(Lower(body), "test")
    ensures Handler(body, post) == Handled([], [Callback(None, Some([TestReply]))])
  {
    EmojiSurvivesLower(body);
  }

  /** Anything else gets the fallback reply and no POST. */
  lemma OtherwiseUnknown(body: string, post: PostOutcome)
    requires ScooterEmoji !in body
    requires !Includes(Lower(body), "test")
    ensures Handler(body, post) == Handled([], [Callback(None, Some([UnknownReply]))])
  {
  }

  lemma UpperCaseTest(post: PostOutcome)
    ensures Handler("TEST", post) == Handled([], [Callback(None, Some([TestReply]))])
  {
    assert Lower("TEST") == "test";
    assert Includes("test", "test");
    assert ScooterEmoji !in "TEST";
    TestGreets("TEST", post);
  }
}
