/**
 * The device endpoints of the two rooms and the outbound calls the
 * dispatcher launches against them. A call is recorded as the HTTP method,
 * the endpoint and the JSON body; the HTTP exchange itself is not modelled.
 */
module Devices {
  import opened Wrappers

  // Device endpoint addresses, fixed at start-up.
  const FrTvHost := "http://192.168.72.20:8080/tv/actions"
  const MbTvHost := "http://192.168.72.25:8080/tv/actions"
  const FrRokuHost := "http://192.168.72.91:8080/systems/family-room/actions"
  const MbRokuHost := "http://192.168.72.91:8080/systems/master-bedroom/actions"
  const FrReceiverHost := "http://192.168.72.91:8081/receiver/"

  /** The five device endpoints: each room's TV and streaming box, and the family-room receiver. */
  datatype Endpoint = FrTv | MbTv | FrRoku | MbRoku | FrReceiver

  /** The address a call to an endpoint goes to. */
  function Url(e: Endpoint): string {
    match e
    case FrTv => FrTvHost
    case MbTv => MbTvHost
    case FrRoku => FrRokuHost
    case MbRoku => MbRokuHost
    case FrReceiver => FrReceiverHost
  }

  /** Distinct endpoints have distinct addresses, so a call's endpoint determines where it goes and back. */
  lemma UrlInjective(a: Endpoint, b: Endpoint)
    ensures Url(a) == Url(b) <==> a == b
  {
  }

  /** The two rooms the dispatcher serves. */
  datatype Room = FamilyRoom | MasterBedroom

  /** The room an endpoint's device stands in. */
  function RoomOf(e: Endpoint): Room {
    match e
    case FrTv | FrRoku | FrReceiver => FamilyRoom
    case MbTv | MbRoku => MasterBedroom
  }

  /** The TV of a room; the two rooms have different TVs. */
  function TvHost(room: Room): (e: Endpoint)
    ensures RoomOf(e) == room
    ensures e != FrReceiver
  {
    match room
    case FamilyRoom => FrTv
    case MasterBedroom => MbTv
  }

  /** The streaming box of a room. */
  function RokuHost(room: Room): (e: Endpoint)
    ensures RoomOf(e) == room
    ensures e != FrReceiver && e != TvHost(room)
  {
    match room
    case FamilyRoom => FrRoku
    case MasterBedroom => MbRoku
  }

  /**
   * One launched call: a device command POSTed to an action endpoint, a
   * partial receiver state PUT to the receiver, or the fixed half-second
   * pause between switching a TV on and selecting its input.
   */
  datatype Call = Post(host: Endpoint, command: string, value: string) | Put(host: Endpoint, body: string) | Pause

  /** A call stays inside a room: it is the pause or goes to a device of that room. */
  predicate InRoom(room: Room, c: Call) {
    c.Pause? || RoomOf(c.host) == room
  }

  // The pieces of a device command body `{"command": "<c>", "value": "<v>"}`.
  const CommandOpen := "{\"command\": \""
  const ValueField := "\", \"value\": \""
  const CommandClose := "\"}"

  /**
   * The JSON body of a device command. The `value` field is present only
   * for a non-empty value; neither string is escaped.
   */
  function CommandBody(command: string, value: string): string {
    CommandOpen + command + (if value == "" then "" else ValueField + value) + CommandClose
  }

  /** The JSON body a launched call sends; the pause sends nothing. */
  function Body(c: Call): string {
    match c
    case Post(_, command, value) => CommandBody(command, value)
    case Put(_, body) => body
    case Pause => ""
  }

  // Receiver state patches that the handlers send.
  const ReceiverOffPatch := "{\"on\": false}"
  const MuteOnPatch := "{\"mute\": true}"
  const MuteOffPatch := "{\"mute\": false}"

  /** The receiver patch of the VOLUME intent: the spoken level, negated. */
  function VolumePatch(level: string): string {
    "{\"volume\": -" + level + "}"
  }

  /** The receiver patch of an input change: on, at volume -30, on the given receiver input. */
  function ReceiverInputPatch(input: string): string {
    ReceiverOnPatch + InputField(input)
  }

  // The receiver patch of an input change is begun as power-on at volume -30 ...
  const ReceiverOnPatch := "{\"on\":true, \"volume\": -30"

  /** ... and completed with the receiver input. */
  function InputField(input: string): string {
    ", \"input\": \"" + input + "\"}"
  }

  /**
   * The JSON an input change sends to a receiver for `input`: power on, volume -30
   * and the input, in one patch. A pause sends nothing.
   */
  lemma ReceiverInputBody(e: Endpoint, input: string)
    ensures Body(Put(e, ReceiverInputPatch(input)))
            == "{\"on\":true, \"volume\": -30, \"input\": \"" + input + "\"}"
    ensures Body(Pause) == ""
  {
    assert Body(Put(e, ReceiverInputPatch(input))) == ReceiverOnPatch + InputField(input);
  }

  /** Index of the first double quote in `s`, or `|s|` when it has none. */
  function QuoteIndex(s: string): (n: nat)
    ensures n <= |s|
    ensures '"' !in s[..n]
    ensures n < |s| ==> s[n] == '"'
  {
    if s == [] then 0
    else if s[0] == '"' then 0
    else
      var m := QuoteIndex(s[1..]);
      assert s[..m + 1] == [s[0]] + s[1..][..m];
      m + 1
  }

  /**
   * Reads a device command body back into its command and value. Neither
   * may contain a double quote, since the body carries them unescaped.
   */
  function ParseCommandBody(b: string): Option<(string, string)> {
    if |b| < |CommandOpen| || b[..|CommandOpen|] != CommandOpen then None
    else
      var rest := b[|CommandOpen|..];
      var n := QuoteIndex(rest);
      var command, tail := rest[..n], rest[n..];
      if tail == CommandClose then Some((command, ""))
      else if |tail| < |ValueField| + |CommandClose| || tail[..|ValueField|] != ValueField
           || tail[|tail| - |CommandClose|..] != CommandClose then None
      else
        var value := tail[|ValueField|..|tail| - |CommandClose|];
        if value == "" || '"' in value then None else Some((command, value))
  }

  lemma {:induction false} QuoteIndexOfPrefix(c: string, t: string)
    requires '"' !in c
    requires |t| > 0 && t[0] == '"'
    ensures QuoteIndex(c + t) == |c|
  {
    if c != [] {
      assert (c + t)[1..] == c[1..] + t;
      QuoteIndexOfPrefix(c[1..], t);
    }
  }

  /** Parsing a body gives back the command and value it was built from. */
  lemma CommandBodyRoundTrip(command: string, value: string)
    requires '"' !in command && '"' !in value
    ensures ParseCommandBody(CommandBody(command, value)) == Some((command, value))
  {
    var tail := (if value == "" then "" else ValueField + value) + CommandClose;
    var b := CommandBody(command, value);
    assert b == CommandOpen + (command + tail);
    assert b[..|CommandOpen|] == CommandOpen;
    assert b[|CommandOpen|..] == command + tail;
    QuoteIndexOfPrefix(command, tail);
    assert (command + tail)[..|command|] == command;
    assert (command + tail)[|command|..] == tail;
    if value != "" {
      assert tail == ValueField + value + CommandClose;
      assert tail[..|ValueField|] == ValueField;
      assert tail[|ValueField|..|tail| - |CommandClose|] == value;
      assert tail[|tail| - |CommandClose|..] == CommandClose;
    }
  }

  /**
   * The body is exactly `{"command": "<c>"}` for an empty value and
   * exactly `{"command": "<c>", "value": "<v>"}` otherwise.
   */
  lemma CommandBodyText(command: string, value: string)
    ensures value == "" ==> CommandBody(command, value) == "{\"command\": \"" + command + "\"}"
    ensures value != "" ==>
      CommandBody(command, value) == "{\"command\": \"" + command + "\", \"value\": \"" + value + "\"}"
  {
    if value == "" {
      assert CommandBody(command, value) == CommandOpen + command + CommandClose;
    } else {
      assert CommandBody(command, value) == CommandOpen + command + ValueField + value + CommandClose;
    }
  }

  /** Quote-free commands and values give pairwise distinct bodies. */
  lemma CommandBodyInjective(c1: string, v1: string, c2: string, v2: string)
    requires '"' !in c1 && '"' !in v1 && '"' !in c2 && '"' !in v2
    requires CommandBody(c1, v1) == CommandBody(c2, v2)
    ensures c1 == c2 && v1 == v2
  {
    CommandBodyRoundTrip(c1, v1);
    CommandBodyRoundTrip(c2, v2);
  }

  /** The body has a `value` field exactly when the value is non-empty. */
  lemma CommandBodyValueField(command: string, value: string)
    ensures var b := CommandBody(command, value);
            value == "" <==> b == CommandOpen + command + CommandClose
  {
    if value != "" {
      var b := CommandBody(command, value);
      assert b[|CommandOpen| + |command|] == ValueField[0] == '"';
      assert (CommandOpen + command + CommandClose)[|CommandOpen| + |command|] == '"';
      assert |b| > |CommandOpen + command + CommandClose|;
    }
  }

  /** Without escaping, a command holding quotes can produce another command's body. */
  lemma CommandBodyNotEscaped()
    ensures CommandBody("up\", \"value\": \"3", "") == CommandBody("up", "3")
  {
  }

  /**
   * The body of a device command as it is built before the POST: the
   * command alone, widened with the value when there is one.
   */
  method ExecuteAction(command: string, value: string) returns (bodyStr: string)
    ensures bodyStr == CommandBody(command, value)
    ensures '"' !in command && '"' !in value ==> ParseCommandBody(bodyStr) == Some((command, value))
  {
    bodyStr := "{\"command\": \"" + command + "\"}";
    if |value| > 0 {
      bodyStr := "{\"command\": \"" + command + "\", \"value\": \"" + value + "\"}";
    }
    CommandBodyText(command, value);
    if '"' !in command && '"' !in value {
      CommandBodyRoundTrip(command, value);
    }
  }
}
