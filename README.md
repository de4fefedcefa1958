# Voice-controlled home theatre dispatcher

A model of a home-theatre voice skill, `alexa.go`. The skill serves two rooms, the family room and the
master bedroom, with one intent handler each. A handler takes a spoken intent name and its slot values.
It chooses which devices to drive and launches HTTP calls to them: the room's TV, the room's streaming
box (a Roku), and, in the family room only, an audio receiver. It answers with a speech text.

The model records what the handlers launch, not the HTTP exchange. A launched call is one of:

- a device command `Post(endpoint, command, value)`; `Body` gives its JSON body exactly as the program
  builds it;
- a receiver patch `Put(endpoint, body)`;
- the half-second `Pause` that the program inserts between powering a TV on and selecting its input.

The outcome of a request is either `Reply(speech, launched)`, with the calls in launch order, or
`Exited`. A handler exits when a slot that its command needs cannot be read, because the program then
calls a fatal log that terminates the process.

Modules:

- `Wrappers`: the `Option` type.
- `Text`: upper-casing of intent names and the normalisation of spoken input names (upper-case, then
  remove every space).
- `Devices`:
  - the five endpoint addresses;
  - the calls;
  - the device command body of `executeAction` (lines 493-496) and a parser for it;
  - the receiver patches.
- `InputResolver`: the two input switches, `frSetInput` and `mbSetInput`. Each is in three forms:
  - a pure route selection (`FrRouteOf`, `MbRouteOf`) that mirrors the `case` lists;
  - an independent alias table with first-match lookup, proved equal to the switch;
  - a step-by-step method (`FrSetInput`, `MbSetInput`) that builds the receiver payload by appending,
    as the program does, and is proved to launch exactly the route's calls.
- `Dispatcher`:
  - the two intent handlers as pure functions;
  - step-by-step methods `FRIntentHandler` and `MBIntentHandler`, proved equal to those functions;
  - command tables and lemmas that state the behaviour per command, as iff statements where the program
    draws a line (unknown intents, process exit);
  - the concrete request scenarios.

The VOLUME, CHANNEL, INPUT and SEARCH branches assign the apology text after `log.Fatal` when their
slot cannot be read. `log.Fatal` terminates the process, so that apology is never answered. The model
follows the code: the outcome is `Exited`, and no call has been launched (`ExitsIff`,
`VolumeWithoutLevel`, and the `exited` result of the two handler methods).

## Model

| member | source | states |
|---|---|---|
| Text.UpperChar | alexa.go:42 | ASCII upper-casing of one character: the result is never a lower-case letter; a lower-case letter moves down by 32 and every other character is kept. |
| Text.ToUpper | alexa.go:42 | Upper-casing keeps the length and upper-cases every position. |
| Text.RemoveSpaces | alexa.go:79 | Removing spaces leaves no space, never lengthens, and keeps exactly the non-space characters. |
| Text.RemoveSpacesMultiset | alexa.go:79 | Removing spaces keeps each non-space character as often as it occurs: the result's multiset is the input's with the spaces taken out (by induction). |
| Text.RemoveSpacesAppend | alexa.go:79 | Space removal of a concatenation is the concatenation of the space removals, so the kept characters stay in their order (by induction). |
| Text.NormaliseInput | alexa.go:79 | A normalised input name has no space and no lower-case letter. |
| Text.ToUpperNoLowerIsIdentity | alexa.go:42 | Upper-casing a string without lower-case letters changes nothing (by induction). |
| Text.RemoveSpacesNoSpaceIsIdentity | alexa.go:79 | Removing spaces from a space-free string changes nothing (by induction). |
| Text.ToUpperIdempotent | alexa.go:42 | Upper-casing twice equals upper-casing once. |
| Text.NormaliseInputIdempotent | alexa.go:174 | A normalised input name is its own normal form. |
| Text.NormalisedNeverMatches | alexa.go:79 | No normalised name equals a case label that contains a space or a lower-case letter. |
| Devices.Url | alexa.go:29-33 | Definition, no contract: the host address of each endpoint. Its partner is `UrlInjective`. |
| Devices.CommandBody | alexa.go:493-496 | Definition, no contract: the device command body. Its partners are `CommandBodyText` (the two literal forms), `CommandBodyRoundTrip` (the parser inverts it) and `ExecuteAction`. |
| Devices.Body | alexa.go:493-496 | Definition, no contract: the JSON a launched call sends, the command body for a POST and the patch itself for a PUT. Its partners are `CommandBodyText` and `ReceiverInputBody`. |
| Devices.VolumePatch | alexa.go:59 | Definition, no contract: the receiver patch `{"volume": -<level>}`. Its partner is `Dispatcher.ReceiverCommands`. |
| Devices.ReceiverInputPatch | alexa.go:235-238 | Definition, no contract: the receiver payload begun at line 235 and completed by the case. Its partners are `ReceiverInputBody` and `InputResolver.FrSetInput`. |
| Devices.InputField | alexa.go:238 | Definition, no contract: the suffix each family-room case appends to the payload. Its partner is `InputResolver.FrSetInput`, which appends it as the switch does. |
| Devices.ReceiverInputBody | alexa.go:235-238 | An input change sends the receiver exactly `{"on":true, "volume": -30, "input": "<input>"}`, and a pause sends nothing. |
| Devices.UrlInjective | alexa.go:29-33 | The five endpoint addresses are pairwise distinct, so a call's endpoint names exactly one host. |
| Devices.TvHost | alexa.go:29-30 | Each room's TV endpoint belongs to that room and is not the receiver. |
| Devices.RokuHost | alexa.go:31-32 | Each room's streaming-box endpoint belongs to that room and is neither the receiver nor the room's TV. |
| Devices.QuoteIndex | alexa.go:493-496 | Helper of `ParseCommandBody`, the reading of a body back into its parts; no source counterpart. Finds the first double quote: no quote before it, and a quote at it unless the string ends. |
| Devices.QuoteIndexOfPrefix | alexa.go:493-496 | Helper of `ParseCommandBody`; no source counterpart. For a quote-free text followed by a quote, the first quote is right after the text (by induction). |
| Devices.CommandBodyRoundTrip | alexa.go:493-496 | Parsing a device command body gives back the command and value it was built from, for quote-free strings. |
| Devices.CommandBodyText | alexa.go:493-496 | The body is exactly `{"command": "<c>"}` for an empty value and exactly `{"command": "<c>", "value": "<v>"}` otherwise. |
| Devices.CommandBodyInjective | alexa.go:493-496 | Distinct quote-free (command, value) pairs give distinct bodies. |
| Devices.CommandBodyValueField | alexa.go:494 | The body carries a value field exactly when the value is non-empty. |
| Devices.CommandBodyNotEscaped | alexa.go:493-496 | Without escaping, the command `up", "value": "3` with no value gives the same body as `up` with value `3`. |
| Devices.ExecuteAction | alexa.go:493-496 | The body built by reassignment equals the command body, and it parses back to its command and value. |
| InputResolver.Lookup | alexa.go:236-395 | Definition, no contract: first-match lookup in an alias table, as a switch takes the first case that lists the value. Its partners are `LookupMissesUnlisted` and `LookupFromRow`. |
| InputResolver.FrRouteOf | alexa.go:236-396 | Definition, no contract: the route each family-room case list selects. `FrSwitchIsTableLookup` proves it equal to `Lookup(FrAliasTable, ·)` with the default route on a miss. |
| InputResolver.FrCalls | alexa.go:237-395 | Definition, no contract: the calls of a family-room route. Its partners are `FrCallsList` and `FrResolveShape`. |
| InputResolver.FrResolve | alexa.go:233-397 | Definition, no contract: the calls launched for a family-room input name. Its partners are `FrSetInput`, `FrResolveShape` and `FrResolveInRoom`. |
| InputResolver.MbRouteOf | alexa.go:401-488 | Definition, no contract: the route each master-bedroom case list selects. `MbSwitchIsTableLookup` proves it equal to `Lookup(MbAliasTable, ·)` with the default route on a miss. |
| InputResolver.MbCalls | alexa.go:402-487 | Definition, no contract: the calls of a master-bedroom route. Its partners are `MbCallsList` and `MbResolveShape`. |
| InputResolver.MbResolve | alexa.go:399-489 | Definition, no contract: the calls launched for a master-bedroom input name. Its partners are `MbSetInput`, `MbResolveShape` and `MbResolveInRoom`. |
| InputResolver.LookupMissesUnlisted | alexa.go:237-395 | First-match lookup in an alias table fails exactly for names that no row lists (by induction). |
| InputResolver.LookupFromRow | alexa.go:237-395 | A route that lookup finds is the route of a row that lists the name (by induction). |
| InputResolver.FrResolveShape | alexa.go:235-395 | Every family-room input change, the default included, launches one receiver PUT first, then at most one streaming-box input, then TV power-on, the pause and the TV input; no other PUT and no other pause. |
| InputResolver.FrCallsList | alexa.go:235-395 | The calls of a family-room route, as one list in launch order. |
| InputResolver.FrResolveInRoom | alexa.go:233-397 | A family-room input change only calls family-room devices. |
| InputResolver.FrRow0Agrees | alexa.go:237-242 | Every alias of family-room case 0 selects that case's receiver input, streaming-box app and TV input. |
| InputResolver.FrRow1Agrees | alexa.go:243-248 | Every alias of family-room case 1 selects that case's receiver input, streaming-box app and TV input. |
| InputResolver.FrRow2Agrees | alexa.go:249-254 | Every alias of family-room case 2 selects that case's receiver input, streaming-box app and TV input. |
| InputResolver.FrRow3Agrees | alexa.go:255-260 | Every alias of family-room case 3 selects that case's receiver input, streaming-box app and TV input. |
| InputResolver.FrRow4Agrees | alexa.go:261-266 | Every alias of family-room case 4 selects that case's receiver input, streaming-box app and TV input. |
| InputResolver.FrRow5Agrees | alexa.go:267-272 | Every alias of family-room case 5 selects that case's receiver input, streaming-box app and TV input. |
| InputResolver.FrRow6Agrees | alexa.go:273-278 | Every alias of family-room case 6 selects that case's receiver input, streaming-box app and TV input. |
| InputResolver.FrRow7Agrees | alexa.go:279-284 | Every alias of family-room case 7 selects that case's receiver input, streaming-box app and TV input. |
| InputResolver.FrRow8Agrees | alexa.go:285-290 | Every alias of family-room case 8 selects that case's receiver input, streaming-box app and TV input. |
| InputResolver.FrRow9Agrees | alexa.go:291-297 | Every alias of family-room case 9 selects that case's receiver input, streaming-box app and TV input. |
| InputResolver.FrRow10Agrees | alexa.go:298-304 | Every alias of family-room case 10 selects that case's receiver input, streaming-box app and TV input. |
| InputResolver.FrRow11Agrees | alexa.go:305-311 | Every alias of family-room case 11 selects that case's receiver input, streaming-box app and TV input. |
| InputResolver.FrRow12Agrees | alexa.go:312-318 | Every alias of family-room case 12 selects that case's receiver input, streaming-box app and TV input. |
| InputResolver.FrRow13Agrees | alexa.go:319-325 | Every alias of family-room case 13 selects that case's receiver input, streaming-box app and TV input. |
| InputResolver.FrRow14Agrees | alexa.go:326-332 | Every alias of family-room case 14 selects that case's receiver input, streaming-box app and TV input. |
| InputResolver.FrRow15Agrees | alexa.go:333-339 | Every alias of family-room case 15 selects that case's receiver input, streaming-box app and TV input. |
| InputResolver.FrRow16Agrees | alexa.go:340-346 | Every alias of family-room case 16 selects that case's receiver input, streaming-box app and TV input. |
| InputResolver.FrRow17Agrees | alexa.go:347-353 | Every alias of family-room case 17 selects that case's receiver input, streaming-box app and TV input. |
| InputResolver.FrRow18Agrees | alexa.go:354-360 | Every alias of family-room case 18 selects that case's receiver input, streaming-box app and TV input. |
| InputResolver.FrRow19Agrees | alexa.go:361-367 | Every alias of family-room case 19 selects that case's receiver input, streaming-box app and TV input. |
| InputResolver.FrRow20Agrees | alexa.go:368-374 | Every alias of family-room case 20 selects that case's receiver input, streaming-box app and TV input. |
| InputResolver.FrRow21Agrees | alexa.go:375-381 | Every alias of family-room case 21 selects that case's receiver input, streaming-box app and TV input. |
| InputResolver.FrRow22Agrees | alexa.go:382-388 | Every alias of family-room case 22 selects that case's receiver input, streaming-box app and TV input. |
| InputResolver.FrTableAgrees | alexa.go:237-388 | Every alias of every family-room case row selects that row's route. |
| InputResolver.FrUnlisted | alexa.go:389-395 | A name no family-room case lists takes the default route: receiver and TV on HDMI1, the name itself as the app. |
| InputResolver.FrUnlistedCalls | alexa.go:389-395 | An unlisted name launches the receiver PUT for HDMI1, a streaming-box input named by the name, then the TV switch to HDMI1. |
| InputResolver.FrSwitchIsTableLookup | alexa.go:235-395 | The family-room switch equals first-match lookup in the alias table, with the default route for a miss. |
| InputResolver.FrAliasInvariance | alexa.go:237-388 | Two aliases of one family-room case launch identical calls. |
| InputResolver.FrSpacedAliasesUnreachable | alexa.go:243 | "RETRO PI" and "RETRO PIE" are case labels that no normalised name can equal; their space-free spellings select the same route. |
| InputResolver.MbCallsList | alexa.go:401-487 | The calls of a master-bedroom route, as one list in launch order. |
| InputResolver.MbResolveShape | alexa.go:399-488 | Every master-bedroom input change launches at most one streaming-box input, then TV power-on, the pause and the TV input; never a PUT. |
| InputResolver.MbResolveInRoom | alexa.go:399-488 | A master-bedroom input change only calls master-bedroom devices and never PUTs. |
| InputResolver.MbRow0Agrees | alexa.go:402-405 | Every alias of master-bedroom case 0 selects that case's streaming-box app and TV input. |
| InputResolver.MbRow1Agrees | alexa.go:406-409 | Every alias of master-bedroom case 1 selects that case's streaming-box app and TV input. |
| InputResolver.MbRow2Agrees | alexa.go:410-413 | Every alias of master-bedroom case 2 selects that case's streaming-box app and TV input. |
| InputResolver.MbRow3Agrees | alexa.go:414-417 | Every alias of master-bedroom case 3 selects that case's streaming-box app and TV input. |
| InputResolver.MbRow4Agrees | alexa.go:418-422 | Every alias of master-bedroom case 4 selects that case's streaming-box app and TV input. |
| InputResolver.MbRow5Agrees | alexa.go:423-427 | Every alias of master-bedroom case 5 selects that case's streaming-box app and TV input. |
| InputResolver.MbRow6Agrees | alexa.go:428-432 | Every alias of master-bedroom case 6 selects that case's streaming-box app and TV input. |
| InputResolver.MbRow7Agrees | alexa.go:433-437 | Every alias of master-bedroom case 7 selects that case's streaming-box app and TV input. |
| InputResolver.MbRow8Agrees | alexa.go:438-442 | Every alias of master-bedroom case 8 selects that case's streaming-box app and TV input. |
| InputResolver.MbRow9Agrees | alexa.go:443-447 | Every alias of master-bedroom case 9 selects that case's streaming-box app and TV input. |
| InputResolver.MbRow10Agrees | alexa.go:448-452 | Every alias of master-bedroom case 10 selects that case's streaming-box app and TV input. |
| InputResolver.MbRow11Agrees | alexa.go:453-457 | Every alias of master-bedroom case 11 selects that case's streaming-box app and TV input. |
| InputResolver.MbRow12Agrees | alexa.go:458-462 | Every alias of master-bedroom case 12 selects that case's streaming-box app and TV input. |
| InputResolver.MbRow13Agrees | alexa.go:463-467 | Every alias of master-bedroom case 13 selects that case's streaming-box app and TV input. |
| InputResolver.MbRow14Agrees | alexa.go:468-472 | Every alias of master-bedroom case 14 selects that case's streaming-box app and TV input. |
| InputResolver.MbRow15Agrees | alexa.go:473-477 | Every alias of master-bedroom case 15 selects that case's streaming-box app and TV input. |
| InputResolver.MbRow16Agrees | alexa.go:478-482 | Every alias of master-bedroom case 16 selects that case's streaming-box app and TV input. |
| InputResolver.MbTableAgrees | alexa.go:402-482 | Every alias of every master-bedroom case row selects that row's route. |
| InputResolver.MbUnlisted | alexa.go:483-487 | A name no master-bedroom case lists opens itself as the app and selects HDMI1. |
| InputResolver.MbSwitchIsTableLookup | alexa.go:401-487 | The master-bedroom switch equals first-match lookup in its alias table, with the default route for a miss. |
| InputResolver.MbAliasInvariance | alexa.go:402-482 | Two aliases of one master-bedroom case launch identical calls. |
| InputResolver.FrCallsSteps | alexa.go:235-395 | Proof hint for `FrSetInput`; no source counterpart of its own. A family-room route's calls regrouped in the order the switch appends them. |
| InputResolver.FrSetInput | alexa.go:233-397 | The step-by-step switch, which completes the receiver payload with `+=`, launches exactly the calls of the name's route. |
| InputResolver.MbCallsSteps | alexa.go:401-487 | Proof hint for `MbSetInput`; no source counterpart of its own. A master-bedroom route's calls regrouped in the order the switch appends them. |
| InputResolver.MbSetInput | alexa.go:399-489 | The step-by-step switch launches exactly the calls of the name's route. |
| Dispatcher.Spaces | alexa.go:87-91 | The navigation count is never empty: it is the Spaces value when that reads as non-empty, and "1" otherwise. |
| Dispatcher.CommandOf | alexa.go:45-226 | Definition, no contract: the case label an upper-cased intent name selects, if any. Its partners are `CommandNameRoundTrip`, `NameOfCommand` and `Vocabulary` (family room: lines 45-131; master bedroom: lines 143-226). |
| Dispatcher.Name | alexa.go:45-226 | Definition, no contract: the name of a case label, the inverse of `CommandOf` by `CommandNameRoundTrip` and `NameOfCommand` (family room: lines 45-131; master bedroom: lines 143-226). |
| Dispatcher.FrRun | alexa.go:46-131 | Definition, no contract: the family-room branch of each label. Its partners are the per-command lemmas below and `FRIntentHandler`. |
| Dispatcher.MbRun | alexa.go:144-226 | Definition, no contract: the master-bedroom branch of each label. Its partners are the per-command lemmas below, `SharedCommands` and `MBIntentHandler`. |
| Dispatcher.Dispatch | alexa.go:45-228 | Definition, no contract: a label the room recognises runs its branch, anything else gets the apology. Its partners are `DispatchName` and `UnknownIntent` (family room: lines 45-133; master bedroom: lines 143-228). |
| Dispatcher.Handle | alexa.go:41-231 | Definition, no contract: a request is dispatched on the upper-cased intent name. Its partners are `CaseInsensitive` and the two handler methods (family room: lines 41-136; master bedroom: lines 139-231). |
| Dispatcher.CommandNameRoundTrip | alexa.go:45-226 | Every case label is selected by its own name (family room: lines 45-131; master bedroom: lines 143-226). |
| Dispatcher.NameOfCommand | alexa.go:45-226 | A name selects a label only if it is that label's name (family room: lines 45-131; master bedroom: lines 143-226). |
| Dispatcher.Vocabulary | alexa.go:45-226 | A room recognises a name exactly when it is a label of that room's switch; the master bedroom has no UNMUTE (family room: lines 45-131; master bedroom: lines 143-226). |
| Dispatcher.DispatchName | alexa.go:45-226 | A label's name runs that label's branch (family room: lines 45-131; master bedroom: lines 143-226). |
| Dispatcher.KnownCommand | alexa.go:44-226 | A recognised command that does not exit answers "Processing Request." and launches at least one call (family room: lines 44-131; master bedroom: lines 142-226). |
| Dispatcher.UnknownIntent | alexa.go:132-228 | An intent is answered with the apology and launches nothing exactly when the room does not recognise it (family room: lines 132-133; master bedroom: lines 227-228). |
| Dispatcher.ExitsIff | alexa.go:53-226 | The process exits exactly for VOLUME, CHANNEL, INPUT and SEARCH when their slot cannot be read (family room: lines 53-131; master bedroom: lines 148-226). |
| Dispatcher.RokuKeyPress | alexa.go:82-218 | HOME, BACK, ENTER, SELECT, PLAY, FORWARD and REVERSE each launch one streaming-box key press with no value (family room: lines 82-85 and 114-123; master bedroom: lines 177-180 and 209-218). |
| Dispatcher.PlayPressesRight | alexa.go:118-214 | PLAY presses the same key as RIGHT, once and without a count (family room: lines 118-119; master bedroom: lines 213-214). |
| Dispatcher.Navigation | alexa.go:86-208 | UP, DOWN, LEFT and RIGHT each launch exactly one streaming-box post whose value is the Spaces value when it reads as non-empty, and "1" otherwise (family room: lines 86-113; master bedroom: lines 181-208). |
| Dispatcher.ChannelCommands | alexa.go:61-167 | CHANNELUP and CHANNELDOWN go to the room's TV without a value; CHANNEL sends the Number slot to the room's TV (family room: lines 61-72; master bedroom: lines 156-167). |
| Dispatcher.SearchCommand | alexa.go:124-226 | SEARCH sends the SearchType value to the room's streaming box (family room: lines 124-131; master bedroom: lines 219-226). |
| Dispatcher.InputCommand | alexa.go:73-176 | INPUT with a readable slot launches exactly the room's input change for the normalised name (family room: lines 73-81; master bedroom: lines 168-176). |
| Dispatcher.ReceiverCommands | alexa.go:46-155 | Family-room OFF powers off the TV and PUTs `{"on": false}`; MUTE and UNMUTE PUT the mute flag; VOLUME PUTs `{"volume": -<Level>}`. Master-bedroom OFF, MUTE and VOLUME post only to the TV (family room: lines 46-60; master bedroom: lines 144-155). |
| Dispatcher.SharedCommands | alexa.go:156-226 | Apart from OFF, MUTE, UNMUTE, VOLUME and INPUT, the master-bedroom branch is the family-room branch with the family-room TV and streaming box replaced by the bedroom's. |
| Dispatcher.FrRoomIsolation | alexa.go:41-136 | Every call the family-room handler launches goes to a family-room device. |
| Dispatcher.MbRoomIsolation | alexa.go:139-231 | Every call the master-bedroom handler launches goes to a master-bedroom device, and none is a PUT. |
| Dispatcher.CaseInsensitive | alexa.go:42-140 | Handling a name equals handling its upper-cased form, and the apology names the upper-cased intent (family room: line 42; master bedroom: line 140). |
| Dispatcher.FrInputRequest | alexa.go:73-81 | A family-room INPUT request with slot value v launches the input change for v normalised. |
| Dispatcher.FrPs4Calls | alexa.go:255-260 | "PS4" sets the receiver to HDMI2 and the TV to HDMI1, with no streaming-box app. |
| Dispatcher.FrPs4Request | alexa.go:73-81 | A family-room INPUT request for "ps4" launches the input change for "PS4". |
| Dispatcher.Ps4Scenario | alexa.go:73-81 | "Input" with InputType "ps4" launches the HDMI2 receiver PUT, TV power-on, the pause and TV HDMI1, in that order. |
| Dispatcher.VolumeWithoutLevel | alexa.go:53-152 | "volume" with an unreadable Level slot ends the process, with no answer and no calls (family room: lines 53-57; master bedroom: lines 148-152). |
| Dispatcher.UnknownFoo | alexa.go:132-133 | "foo" is answered with "I'm sorry I could not process your request FOO." and no calls. |
| Dispatcher.MbUnmute | alexa.go:51-229 | "unmute" is unknown to the master bedroom, which apologises, but the family room PUTs `{"mute": false}` (family room: lines 51-52; master bedroom: lines 143-229). |
| Dispatcher.UpThreeScenario | alexa.go:86-92 | "up" with Spaces "3" launches one streaming-box post carrying "3", not three posts. |
| Dispatcher.FRIntentHandler | alexa.go:41-136 | The step-by-step handler exits exactly when the request exits, launches nothing then, and otherwise answers the speech text and launches the calls of the request. |
| Dispatcher.MBIntentHandler | alexa.go:139-231 | The step-by-step handler exits exactly when the request exits, launches nothing then, and otherwise answers the speech text and launches the calls of the request. |

## Left out

- HTTP transport in `executeAction` and `updateReceiver` is not modelled:
  - request building, the content-type header, the 15-second client timeout, response reading;
  - the fatal log on transport errors, which is process termination on an I/O failure;
  - response status, which is never checked.

  Only the launched calls are recorded: a device command as `(endpoint, command, value)` and a receiver
  patch as `(endpoint, body)`. `Body` gives the JSON each one sends.
- Goroutines: the handlers launch each call concurrently and do not wait. Completion order is not
  determined, so the model records launch order only. `time.Sleep` is the abstract `Pause` call, not time.
- The voice-platform library: `main`, the application table, certificate checks and the application
  identifiers are not modelled. That library's source is not part of this model, so the intent name is a
  given string. `GetSlotValue` is the `Slots` record: one optional value for each slot name the handlers
  read, `None` where the library reports an error.
- Logging and console output.
- `Text.ToUpper`: upper-cases ASCII letters only. Go's `strings.ToUpper` also maps non-ASCII letters; full
  Unicode case mapping has no counterpart here.
- Device addresses are the `Endpoint` enumeration, with `Url` giving the host strings of lines 29-33.
  `UrlInjective` shows that nothing is lost by this.
- The handlers' switches on the intent name are modelled as a match on `CommandOf(intent)`, the case label
  that the name selects. `CommandNameRoundTrip` and `NameOfCommand` relate labels and names both ways.
