/**
 * The two intent handlers, one per room. Each upper-cases the intent name,
 * selects the devices to drive, launches the device and receiver calls and
 * answers with a speech text. A command that needs a slot whose value
 * cannot be read ends the whole process before anything is launched.
 */
module Dispatcher {
  import opened Wrappers
  import opened Text
  import opened Devices
  import opened InputResolver

  /**
   * The slot values of one request, for the five slot names the handlers
   * read; `None` where reading the slot reports an error.
   */
  datatype Slots = Slots(level: Option<string>, number: Option<string>, inputType: Option<string>,
                         searchType: Option<string>, spaces: Option<string>)
  {
    /** The value of the slot with the given name; any other name cannot be read. */
    function Get(name: string): Option<string> {
      match name
      case "Level" => level
      case "Number" => number
      case "InputType" => inputType
      case "SearchType" => searchType
      case "Spaces" => spaces
      case _ => None
    }
  }

  /**
   * What one request comes to: the process exits, or the speech text is
   * answered and the calls are launched, listed in launch order.
   */
  datatype Outcome = Exited | Reply(speech: string, launched: seq<Call>)

  /** The speech text of every recognised command. */
  const Processing := "Processing Request."

  /** The speech text of an unrecognised command. */
  function Apology(intent: string): string {
    "I'm sorry I could not process your request " + intent + "."
  }

  /** A recognised command: the fixed speech text with the calls it launches. */
  function Launch(calls: seq<Call>): Outcome {
    Reply(Processing, calls)
  }

  /** The step count of a navigation command: the slot value if it is readable and non-empty, one otherwise. */
  function Spaces(slotSpaces: Option<string>): (n: string)
    ensures |n| > 0
    ensures n == "1" || slotSpaces == Some(n)
    ensures slotSpaces.Some? && slotSpaces.value != "" ==> n == slotSpaces.value
  {
    match slotSpaces
    case Some(v) => if |v| > 0 then v else "1"
    case None => "1"
  }

  // ---------------------------------------------------------------- the switches

  /** The case labels of the handlers' switches. */
  datatype Command =
    | Off | Mute | Unmute | Volume | Channel | ChannelUp | ChannelDown | Input
    | Home | Back | Up | Down | Left | Right | Enter | Select | Play | Forward | Reverse | Search

  /** The label an upper-cased intent name selects, if any. */
  function CommandOf(intent: string): Option<Command> {
    match intent
    case "OFF" => Some(Off)
    case "MUTE" => Some(Mute)
    case "UNMUTE" => Some(Unmute)
    case "VOLUME" => Some(Volume)
    case "CHANNEL" => Some(Channel)
    case "CHANNELUP" => Some(ChannelUp)
    case "CHANNELDOWN" => Some(ChannelDown)
    case "INPUT" => Some(Input)
    case "HOME" => Some(Home)
    case "BACK" => Some(Back)
    case "UP" => Some(Up)
    case "DOWN" => Some(Down)
    case "LEFT" => Some(Left)
    case "RIGHT" => Some(Right)
    case "ENTER" => Some(Enter)
    case "SELECT" => Some(Select)
    case "PLAY" => Some(Play)
    case "FORWARD" => Some(Forward)
    case "REVERSE" => Some(Reverse)
    case "SEARCH" => Some(Search)
    case _ => None
  }

  /** The label as it is written in the switch. */
  function Name(c: Command): string {
    match c
    case Off => "OFF"
    case Mute => "MUTE"
    case Unmute => "UNMUTE"
    case Volume => "VOLUME"
    case Channel => "CHANNEL"
    case ChannelUp => "CHANNELUP"
    case ChannelDown => "CHANNELDOWN"
    case Input => "INPUT"
    case Home => "HOME"
    case Back => "BACK"
    case Up => "UP"
    case Down => "DOWN"
    case Left => "LEFT"
    case Right => "RIGHT"
    case Enter => "ENTER"
    case Select => "SELECT"
    case Play => "PLAY"
    case Forward => "FORWARD"
    case Reverse => "REVERSE"
    case Search => "SEARCH"
  }

  /** The master-bedroom switch has no UNMUTE label. */
  predicate Recognises(room: Room, c: Command) {
    room == FamilyRoom || c != Unmute
  }

  /** The family-room switch's branches. */
  function FrRun(c: Command, slot: Slots): Outcome {
    match c
    case Off => Launch([Post(FrTv, "PowerOff", ""), Put(FrReceiver, ReceiverOffPatch)])
    case Mute => Launch([Put(FrReceiver, MuteOnPatch)])
    case Unmute => Launch([Put(FrReceiver, MuteOffPatch)])
    case Volume =>
      if slot.level.None? then Exited else Launch([Put(FrReceiver, VolumePatch(slot.level.value))])
    case Channel =>
      if slot.number.None? then Exited else Launch([Post(FrTv, "Channel", slot.number.value)])
    case ChannelUp => Launch([Post(FrTv, "ChannelUp", "")])
    case ChannelDown => Launch([Post(FrTv, "ChannelDown", "")])
    case Input =>
      if slot.inputType.None? then Exited else Launch(FrResolve(NormaliseInput(slot.inputType.value)))
    case Home => Launch([Post(FrRoku, "home", "")])
    case Back => Launch([Post(FrRoku, "back", "")])
    case Up => Launch([Post(FrRoku, "up", Spaces(slot.spaces))])
    case Down => Launch([Post(FrRoku, "down", Spaces(slot.spaces))])
    case Left => Launch([Post(FrRoku, "left", Spaces(slot.spaces))])
    case Right => Launch([Post(FrRoku, "right", Spaces(slot.spaces))])
    case Enter => Launch([Post(FrRoku, "enter", "")])
    case Select => Launch([Post(FrRoku, "select", "")])
    case Play => Launch([Post(FrRoku, "right", "")])
    case Forward => Launch([Post(FrRoku, "forward", "")])
    case Reverse => Launch([Post(FrRoku, "reverse", "")])
    case Search =>
      if slot.searchType.None? then Exited else Launch([Post(FrRoku, "search", slot.searchType.value)])
  }

  /** The master-bedroom switch's branches. */
  function MbRun(c: Command, slot: Slots): Outcome
    requires Recognises(MasterBedroom, c)
  {
    match c
    case Off => Launch([Post(MbTv, "PowerOff", "")])
    case Mute => Launch([Post(MbTv, "Mute", "")])
    case Volume =>
      if slot.level.None? then Exited else Launch([Post(MbTv, "Volume", slot.level.value)])
    case Channel =>
      if slot.number.None? then Exited else Launch([Post(MbTv, "Channel", slot.number.value)])
    case ChannelUp => Launch([Post(MbTv, "ChannelUp", "")])
    case ChannelDown => Launch([Post(MbTv, "ChannelDown", "")])
    case Input =>
      if slot.inputType.None? then Exited else Launch(MbResolve(NormaliseInput(slot.inputType.value)))
    case Home => Launch([Post(MbRoku, "home", "")])
    case Back => Launch([Post(MbRoku, "back", "")])
    case Up => Launch([Post(MbRoku, "up", Spaces(slot.spaces))])
    case Down => Launch([Post(MbRoku, "down", Spaces(slot.spaces))])
    case Left => Launch([Post(MbRoku, "left", Spaces(slot.spaces))])
    case Right => Launch([Post(MbRoku, "right", Spaces(slot.spaces))])
    case Enter => Launch([Post(MbRoku, "enter", "")])
    case Select => Launch([Post(MbRoku, "select", "")])
    case Play => Launch([Post(MbRoku, "right", "")])
    case Forward => Launch([Post(MbRoku, "forward", "")])
    case Reverse => Launch([Post(MbRoku, "reverse", "")])
    case Search =>
      if slot.searchType.None? then Exited else Launch([Post(MbRoku, "search", slot.searchType.value)])
  }

  function Run(room: Room, c: Command, slot: Slots): Outcome
    requires Recognises(room, c)
  {
    match room
    case FamilyRoom => FrRun(c, slot)
    case MasterBedroom => MbRun(c, slot)
  }

  /** A room's switch on an upper-cased intent name: a label it has runs its branch, anything else is apologised for. */
  function Dispatch(room: Room, intent: string, slot: Slots): Outcome {
    match CommandOf(intent)
    case Some(c) => if Recognises(room, c) then Run(room, c, slot) else Reply(Apology(intent), [])
    case None => Reply(Apology(intent), [])
  }

  /** One request to a room's handler: the intent name is upper-cased before the switch. */
  function Handle(room: Room, intentName: string, slot: Slots): Outcome {
    Dispatch(room, ToUpper(intentName), slot)
  }

  // ------------------------------------------------------- the command vocabulary

  /** The intent names the family-room handler recognises. */
  const FrIntents: set<string> := {
    "OFF", "MUTE", "UNMUTE", "VOLUME", "CHANNEL", "CHANNELUP", "CHANNELDOWN", "INPUT",
    "HOME", "BACK", "UP", "DOWN", "LEFT", "RIGHT", "ENTER", "SELECT", "PLAY",
    "FORWARD", "REVERSE", "SEARCH"
  }

  /** The master-bedroom handler recognises the same names except UNMUTE. */
  const MbIntents: set<string> := FrIntents - {"UNMUTE"}

  function Intents(room: Room): set<string> {
    match room
    case FamilyRoom => FrIntents
    case MasterBedroom => MbIntents
  }

  /** The commands that read a slot before they launch anything, with the slot each reads. */
  const SlotNames: map<Command, string> :=
    map[Volume := "Level", Channel := "Number", Input := "InputType", Search := "SearchType"]

  /** Streaming-box keys pressed once, by command; PLAY presses the right key. */
  const RokuKeys: map<Command, string> :=
    map[Home := "home", Back := "back", Enter := "enter", Select := "select",
        Play := "right", Forward := "forward", Reverse := "reverse"]

  /** Streaming-box keys pressed a number of times given by the Spaces slot. */
  const NavigationKeys: map<Command, string> :=
    map[Up := "up", Down := "down", Left := "left", Right := "right"]

  /** TV commands without a value. */
  const TvKeys: map<Command, string> :=
    map[ChannelUp := "ChannelUp", ChannelDown := "ChannelDown"]

  // ------------------------------------------------------------------ properties

  /** Every label is selected by its own name. */
  lemma CommandNameRoundTrip(c: Command)
    ensures CommandOf(Name(c)) == Some(c)
  {
  }

  /** A name selects a label only when it is that label's name. */
  lemma NameOfCommand(intent: string)
    ensures CommandOf(intent).Some? ==> Name(CommandOf(intent).value) == intent
  {
  }

  /** The names a room's handler recognises are the labels of its switch. */
  lemma Vocabulary(room: Room, intent: string)
    ensures intent in Intents(room) <==> CommandOf(intent).Some? && Recognises(room, CommandOf(intent).value)
  {
  }

  /** A label's name runs the label's branch. */
  lemma DispatchName(room: Room, c: Command, slot: Slots)
    requires Recognises(room, c)
    ensures Dispatch(room, Name(c), slot) == Run(room, c, slot)
  {
    CommandNameRoundTrip(c);
  }

  /** A recognised command, unless it ends the process, answers the fixed text and launches at least one call. */
  lemma KnownCommand(room: Room, c: Command, slot: Slots)
    requires Recognises(room, c)
    ensures Run(room, c, slot).Reply? ==>
      Run(room, c, slot).speech == Processing && |Run(room, c, slot).launched| > 0
  {
  }

  /** An intent is answered with the apology, launching nothing, exactly when the room does not know it. */
  lemma UnknownIntent(room: Room, intent: string, slot: Slots)
    ensures Dispatch(room, intent, slot) == Reply(Apology(intent), []) <==> intent !in Intents(room)
  {
    Vocabulary(room, intent);
    if CommandOf(intent).Some? && Recognises(room, CommandOf(intent).value) {
      KnownCommand(room, CommandOf(intent).value, slot);
    }
  }

  /** The process exits exactly when the command reads a slot and that slot cannot be read. */
  lemma ExitsIff(room: Room, c: Command, slot: Slots)
    requires Recognises(room, c)
    ensures Run(room, c, slot).Exited? <==> c in SlotNames && slot.Get(SlotNames[c]).None?
  {
  }

  /** Each single-press streaming-box command launches one key press without a value. */
  lemma RokuKeyPress(room: Room, c: Command, slot: Slots)
    requires c in RokuKeys
    ensures Run(room, c, slot) == Launch([Post(RokuHost(room), RokuKeys[c], "")])
  {
  }

  /** PLAY presses the same key as RIGHT, but once and without a count. */
  lemma PlayPressesRight(room: Room, slot: Slots)
    ensures Run(room, Play, slot).launched[0].command == Run(room, Right, slot).launched[0].command
    ensures Run(room, Play, slot).launched == [Post(RokuHost(room), "right", "")]
  {
  }

  /**
   * Each navigation command launches exactly one key press carrying the
   * count: the Spaces slot's value when it reads as non-empty, "1" otherwise.
   */
  lemma Navigation(room: Room, c: Command, slot: Slots)
    requires c in NavigationKeys
    ensures Run(room, c, slot) == Launch([Post(RokuHost(room), NavigationKeys[c], Spaces(slot.spaces))])
    ensures slot.spaces.Some? && slot.spaces.value != "" ==>
      Run(room, c, slot).launched[0].value == slot.spaces.value
    ensures slot.spaces.None? || slot.spaces == Some("") ==>
      Run(room, c, slot).launched[0].value == "1"
  {
  }

  /** The channel commands go to the room's TV. */
  lemma ChannelCommands(room: Room, c: Command, slot: Slots)
    ensures c in TvKeys ==> Run(room, c, slot) == Launch([Post(TvHost(room), TvKeys[c], "")])
    ensures slot.number.Some? ==>
      Run(room, Channel, slot) == Launch([Post(TvHost(room), "Channel", slot.number.value)])
  {
  }

  /** SEARCH hands the search text to the room's streaming box. */
  lemma SearchCommand(room: Room, slot: Slots)
    ensures slot.searchType.Some? ==>
      Run(room, Search, slot) == Launch([Post(RokuHost(room), "search", slot.searchType.value)])
  {
  }

  /** INPUT normalises the spoken name and launches the room's input change for it. */
  lemma InputCommand(room: Room, slot: Slots)
    ensures slot.inputType.Some? ==>
      Run(room, Input, slot) == Launch(Resolve(room, NormaliseInput(slot.inputType.value)))
  {
  }

  /**
   * The family room drives its receiver for power, muting and volume; the
   * master bedroom has no receiver and sends power, mute and volume to its TV.
   */
  lemma ReceiverCommands(slot: Slots)
    ensures FrRun(Off, slot).launched == [Post(FrTv, "PowerOff", ""), Put(FrReceiver, "{\"on\": false}")]
    ensures MbRun(Off, slot).launched == [Post(MbTv, "PowerOff", "")]
    ensures FrRun(Mute, slot).launched == [Put(FrReceiver, "{\"mute\": true}")]
    ensures FrRun(Unmute, slot).launched == [Put(FrReceiver, "{\"mute\": false}")]
    ensures MbRun(Mute, slot).launched == [Post(MbTv, "Mute", "")]
    ensures slot.level.Some? ==>
      FrRun(Volume, slot).launched == [Put(FrReceiver, "{\"volume\": -" + slot.level.value + "}")]
    ensures slot.level.Some? ==>
      MbRun(Volume, slot).launched == [Post(MbTv, "Volume", slot.level.value)]
  {
  }

  /** An endpoint of the family room renamed to its master-bedroom counterpart. */
  function RetargetHost(e: Endpoint): Endpoint {
    match e
    case FrTv => MbTv
    case FrRoku => MbRoku
    case _ => e
  }

  function RetargetCall(c: Call): Call {
    match c
    case Post(host, command, value) => Post(RetargetHost(host), command, value)
    case Put(host, body) => Put(RetargetHost(host), body)
    case Pause => Pause
  }

  function RetargetAll(cs: seq<Call>): (r: seq<Call>)
    ensures |r| == |cs|
    ensures forall i :: 0 <= i < |cs| ==> r[i] == RetargetCall(cs[i])
  {
    if cs == [] then [] else [RetargetCall(cs[0])] + RetargetAll(cs[1..])
  }

  function Retarget(o: Outcome): Outcome {
    match o
    case Exited => Exited
    case Reply(speech, launched) => Reply(speech, RetargetAll(launched))
  }

  /**
   * Outside power, muting, volume and input, the master bedroom behaves as
   * the family room with the family-room TV and streaming box replaced by
   * its own.
   */
  lemma SharedCommands(c: Command, slot: Slots)
    requires c !in {Off, Mute, Unmute, Volume, Input}
    ensures MbRun(c, slot) == Retarget(FrRun(c, slot))
  {
  }

  /** Every call the family-room handler launches goes to a family-room device. */
  lemma FrRoomIsolation(c: Command, slot: Slots)
    ensures FrRun(c, slot).Reply? ==> forall call :: call in FrRun(c, slot).launched ==> InRoom(FamilyRoom, call)
  {
    if c == Input && slot.inputType.Some? {
      FrResolveInRoom(NormaliseInput(slot.inputType.value));
    }
  }

  /** Every call the master-bedroom handler launches goes to a master-bedroom device, and none is a PUT. */
  lemma MbRoomIsolation(c: Command, slot: Slots)
    requires Recognises(MasterBedroom, c)
    ensures MbRun(c, slot).Reply? ==>
      forall call :: call in MbRun(c, slot).launched ==> InRoom(MasterBedroom, call) && !call.Put?
  {
    if c == Input && slot.inputType.Some? {
      MbResolveInRoom(NormaliseInput(slot.inputType.value));
    }
  }

  /** The intent name is matched without regard to case, and an unknown one is apologised for upper-cased. */
  lemma CaseInsensitive(room: Room, intentName: string, slot: Slots)
    ensures Handle(room, intentName, slot) == Handle(room, ToUpper(intentName), slot)
    ensures Handle(room, intentName, slot) == Reply(Apology(ToUpper(intentName)), []) <==>
      ToUpper(intentName) !in Intents(room)
  {
    ToUpperIdempotent(intentName);
    UnknownIntent(room, ToUpper(intentName), slot);
  }

  // --------------------------------------------------------------- scenarios

  /** A family-room INPUT request whose InputType slot reads `v` launches the input change for `v` normalised. */
  lemma FrInputRequest(slot: Slots, v: string)
    requires slot.inputType == Some(v)
    ensures Dispatch(FamilyRoom, "INPUT", slot) == Launch(FrResolve(NormaliseInput(v)))
  {
    DispatchName(FamilyRoom, Input, slot);
    InputCommand(FamilyRoom, slot);
  }

  /** The family-room route of "PS4": receiver to HDMI2, no streaming-box app, TV to HDMI1. */
  lemma FrPs4Calls()
    ensures FrResolve("PS4") == [Put(FrReceiver, ReceiverInputPatch("HDMI2")),
                                 Post(FrTv, "PowerOn", ""), Pause, Post(FrTv, "HDMI1", "")]
  {
    assert FrRouteOf("PS4") == FrRoute("HDMI2", None, "HDMI1");
    FrCallsList(FrRoute("HDMI2", None, "HDMI1"));
  }

  /** A family-room INPUT request for "ps4" launches the input change for "PS4". */
  lemma FrPs4Request(slot: Slots)
    requires slot.inputType == Some("ps4")
    ensures Dispatch(FamilyRoom, "INPUT", slot) == Launch(FrResolve("PS4"))
  {
    FrInputRequest(slot, "ps4");
    assert NormaliseInput("ps4") == "PS4";
  }

  /** "ps4" in the family room: receiver to HDMI2, TV on, the pause, TV to HDMI1, in that order. */
  lemma Ps4Scenario(slot: Slots)
    requires slot.inputType == Some("ps4")
    ensures Handle(FamilyRoom, "Input", slot)
      == Launch([Put(FrReceiver, ReceiverInputPatch("HDMI2")), Post(FrTv, "PowerOn", ""), Pause, Post(FrTv, "HDMI1", "")])
  {
    assert ToUpper("Input") == "INPUT";
    FrPs4Request(slot);
    FrPs4Calls();
  }

  /** VOLUME without a readable Level slot ends the process; nothing is launched or answered. */
  lemma VolumeWithoutLevel(room: Room, slot: Slots)
    requires slot.level.None?
    ensures Handle(room, "volume", slot) == Exited
  {
    assert ToUpper("volume") == Name(Volume);
    DispatchName(room, Volume, slot);
    ExitsIff(room, Volume, slot);
  }

  /** An unknown intent is apologised for by its upper-cased name. */
  lemma UnknownFoo(room: Room, slot: Slots)
    ensures Handle(room, "foo", slot) == Reply("I'm sorry I could not process your request FOO.", [])
  {
    assert ToUpper("foo") == "FOO";
  }

  /** The master bedroom does not know UNMUTE. */
  lemma MbUnmute(slot: Slots)
    ensures Handle(MasterBedroom, "unmute", slot) == Reply(Apology("UNMUTE"), [])
    ensures Handle(FamilyRoom, "unmute", slot) == Launch([Put(FrReceiver, MuteOffPatch)])
  {
    assert ToUpper("unmute") == Name(Unmute);
    CommandNameRoundTrip(Unmute);
  }

  /** "up" with Spaces "3": a single key press carrying the count, not three presses. */
  lemma UpThreeScenario(slot: Slots)
    requires slot.spaces == Some("3")
    ensures Handle(FamilyRoom, "up", slot) == Launch([Post(FrRoku, "up", "3")])
  {
    assert ToUpper("up") == Name(Up);
    DispatchName(FamilyRoom, Up, slot);
    Navigation(FamilyRoom, Up, slot);
  }

  // ------------------------------------------------------------ the handlers

  /**
   * The family-room handler as written: each branch launches its calls in
   * turn and leaves the speech text in `output`; a slot that cannot be read
   * ends the process instead (`exited`), with nothing launched.
   */
  method FRIntentHandler(intentName: string, slot: Slots) returns (exited: bool, output: string, launched: seq<Call>)
    ensures exited <==> Handle(FamilyRoom, intentName, slot).Exited?
    ensures exited ==> launched == []
    ensures !exited ==> Handle(FamilyRoom, intentName, slot) == Reply(output, launched)
  {
    var intent := ToUpper(intentName);
    exited, output, launched := false, Processing, [];
    match CommandOf(intent) {
      case Some(Off) =>
        launched := launched + [Post(FrTv, "PowerOff", "")];
        launched := launched + [Put(FrReceiver, ReceiverOffPatch)];
      case Some(Mute) =>
        launched := launched + [Put(FrReceiver, MuteOnPatch)];
      case Some(Unmute) =>
        launched := launched + [Put(FrReceiver, MuteOffPatch)];
      case Some(Volume) =>
        var slotLevel := slot.level;
        if slotLevel.None? {
          // The read error is fatal: the process exits before it answers.
          exited := true;
          return;
        }
        launched := launched + [Put(FrReceiver, VolumePatch(slotLevel.value))];
      case Some(Channel) =>
        var slotNumber := slot.number;
        if slotNumber.None? {
          // The read error is fatal: the process exits before it answers.
          exited := true;
          return;
        }
        launched := launched + [Post(FrTv, "Channel", slotNumber.value)];
      case Some(ChannelUp) =>
        launched := launched + [Post(FrTv, "ChannelUp", "")];
      case Some(ChannelDown) =>
        launched := launched + [Post(FrTv, "ChannelDown", "")];
      case Some(Input) =>
        var slotInputType := slot.inputType;
        if slotInputType.None? {
          exited := true;
          return;
        }
        var inputType := RemoveSpaces(ToUpper(slotInputType.value));
        var calls := FrSetInput(inputType);
        launched := launched + calls;
      case Some(Home) =>
        launched := launched + [Post(FrRoku, "home", "")];
      case Some(Back) =>
        launched := launched + [Post(FrRoku, "back", "")];
      case Some(Up) =>
        var spaces := "1";
        var slotSpaces := slot.spaces;
        if slotSpaces.Some? && |slotSpaces.value| > 0 {
          spaces := slotSpaces.value;
        }
        launched := launched + [Post(FrRoku, "up", spaces)];
      case Some(Down) =>
        var spaces := "1";
        var slotSpaces := slot.spaces;
        if slotSpaces.Some? && |slotSpaces.value| > 0 {
          spaces := slotSpaces.value;
        }
        launched := launched + [Post(FrRoku, "down", spaces)];
      case Some(Left) =>
        var spaces := "1";
        var slotSpaces := slot.spaces;
        if slotSpaces.Some? && |slotSpaces.value| > 0 {
          spaces := slotSpaces.value;
        }
        launched := launched + [Post(FrRoku, "left", spaces)];
      case Some(Right) =>
        var spaces := "1";
        var slotSpaces := slot.spaces;
        if slotSpaces.Some? && |slotSpaces.value| > 0 {
          spaces := slotSpaces.value;
        }
        launched := launched + [Post(FrRoku, "right", spaces)];
      case Some(Enter) =>
        launched := launched + [Post(FrRoku, "enter", "")];
      case Some(Select) =>
        launched := launched + [Post(FrRoku, "select", "")];
      case Some(Play) =>
        launched := launched + [Post(FrRoku, "right", "")];
      case Some(Forward) =>
        launched := launched + [Post(FrRoku, "forward", "")];
      case Some(Reverse) =>
        launched := launched + [Post(FrRoku, "reverse", "")];
      case Some(Search) =>
        var slotSearchType := slot.searchType;
        if slotSearchType.None? {
          // The read error is fatal: the process exits before it answers.
          exited := true;
          return;
        }
        launched := launched + [Post(FrRoku, "search", slotSearchType.value)];
      case None =>
        output := Apology(intent);
    }
  }

  /**
   * The master-bedroom handler as written: the same steps with the
   * bedroom's TV and streaming box, no receiver and no UNMUTE branch.
   */
  method MBIntentHandler(intentName: string, slot: Slots) returns (exited: bool, output: string, launched: seq<Call>)
    ensures exited <==> Handle(MasterBedroom, intentName, slot).Exited?
    ensures exited ==> launched == []
    ensures !exited ==> Handle(MasterBedroom, intentName, slot) == Reply(output, launched)
  {
    var intent := ToUpper(intentName);
    exited, output, launched := false, Processing, [];
    match CommandOf(intent) {
      case Some(Off) =>
        launched := launched + [Post(MbTv, "PowerOff", "")];
      case Some(Mute) =>
        launched := launched + [Post(MbTv, "Mute", "")];
      case Some(Volume) =>
        var slotLevel := slot.level;
        if slotLevel.None? {
          // The read error is fatal: the process exits before it answers.
          exited := true;
          return;
        }
        launched := launched + [Post(MbTv, "Volume", slotLevel.value)];
      case Some(Channel) =>
        var slotNumber := slot.number;
        if slotNumber.None? {
          // The read error is fatal: the process exits before it answers.
          exited := true;
          return;
        }
        launched := launched + [Post(MbTv, "Channel", slotNumber.value)];
      case Some(ChannelUp) =>
        launched := launched + [Post(MbTv, "ChannelUp", "")];
      case Some(ChannelDown) =>
        launched := launched + [Post(MbTv, "ChannelDown", "")];
      case Some(Input) =>
        var slotInputType := slot.inputType;
        if slotInputType.None? {
          exited := true;
          return;
        }
        var inputType := RemoveSpaces(ToUpper(slotInputType.value));
        var calls := MbSetInput(inputType);
        launched := launched + calls;
      case Some(Home) =>
        launched := launched + [Post(MbRoku, "home", "")];
      case Some(Back) =>
        launched := launched + [Post(MbRoku, "back", "")];
      case Some(Up) =>
        var spaces := "1";
        var slotSpaces := slot.spaces;
        if slotSpaces.Some? && |slotSpaces.value| > 0 {
          spaces := slotSpaces.value;
        }
        launched := launched + [Post(MbRoku, "up", spaces)];
      case Some(Down) =>
        var spaces := "1";
        var slotSpaces := slot.spaces;
        if slotSpaces.Some? && |slotSpaces.value| > 0 {
          spaces := slotSpaces.value;
        }
        launched := launched + [Post(MbRoku, "down", spaces)];
      case Some(Left) =>
        var spaces := "1";
        var slotSpaces := slot.spaces;
        if slotSpaces.Some? && |slotSpaces.value| > 0 {
          spaces := slotSpaces.value;
        }
        launched := launched + [Post(MbRoku, "left", spaces)];
      case Some(Right) =>
        var spaces := "1";
        var slotSpaces := slot.spaces;
        if slotSpaces.Some? && |slotSpaces.value| > 0 {
          spaces := slotSpaces.value;
        }
        launched := launched + [Post(MbRoku, "right", spaces)];
      case Some(Enter) =>
        launched := launched + [Post(MbRoku, "enter", "")];
      case Some(Select) =>
        launched := launched + [Post(MbRoku, "select", "")];
      case Some(Play) =>
        launched := launched + [Post(MbRoku, "right", "")];
      case Some(Forward) =>
        launched := launched + [Post(MbRoku, "forward", "")];
      case Some(Reverse) =>
        launched := launched + [Post(MbRoku, "reverse", "")];
      case Some(Search) =>
        var slotSearchType := slot.searchType;
        if slotSearchType.None? {
          // The read error is fatal: the process exits before it answers.
          exited := true;
          return;
        }
        launched := launched + [Post(MbRoku, "search", slotSearchType.value)];
      case Some(Unmute) | None =>
        output := Apology(intent);
    }
  }
}
