/**
 * Resolution of a spoken input name to the calls that switch a room to it.
 * Each room selects a route with a switch over case lists of accepted names;
 * a name that no case lists is forwarded as a streaming-box input. The same
 * case lists are also given as a table, and the switch is proved to be
 * first-match lookup in that table.
 */
module InputResolver {
  import opened Wrappers
  import opened Text
  import opened Devices

  /** One row of an alias table: the accepted names and the route they select. */
  datatype AliasRow<R> = AliasRow(aliases: seq<string>, route: R)

  /** Some row of the table lists `s`. */
  predicate Listed<R>(table: seq<AliasRow<R>>, s: string) {
    exists k :: 0 <= k < |table| && s in table[k].aliases
  }

  /** First-match lookup: the route of the first row that lists `s`. */
  function Lookup<R>(table: seq<AliasRow<R>>, s: string): Option<R> {
    if table == [] then None
    else if s in table[0].aliases then Some(table[0].route)
    else Lookup(table[1..], s)
  }

  /** Lookup fails exactly for the names no row lists. */
  lemma {:induction false} LookupMissesUnlisted<R>(table: seq<AliasRow<R>>, s: string)
    ensures Lookup(table, s).None? <==> !Listed(table, s)
  {
    if table != [] && s !in table[0].aliases {
      LookupMissesUnlisted(table[1..], s);
      if Listed(table, s) {
        var k :| 0 <= k < |table| && s in table[k].aliases;
        assert k > 0 && s in table[1..][k - 1].aliases;
      }
    }
  }

  /** A route that lookup finds is the route of some row that lists the name. */
  lemma {:induction false} LookupFromRow<R>(table: seq<AliasRow<R>>, s: string)
    requires Lookup(table, s).Some?
    ensures exists k :: 0 <= k < |table| && s in table[k].aliases && table[k].route == Lookup(table, s).value
  {
    if s !in table[0].aliases {
      LookupFromRow(table[1..], s);
      var k :| 0 <= k < |table[1..]| && s in table[1..][k].aliases && table[1..][k].route == Lookup(table, s).value;
      assert table[k + 1] == table[1..][k];
    }
  }

  /** The TV half of every input change: power on, wait, select the TV input. */
  function TvSwitch(tv: Endpoint, tvInput: string): seq<Call> {
    [Post(tv, "PowerOn", ""), Pause, Post(tv, tvInput, "")]
  }

  /** The streaming-box app to open, if any. */
  function RokuInput(roku: Endpoint, app: Option<string>): seq<Call> {
    match app
    case Some(name) => [Post(roku, "input", name)]
    case None => []
  }

  // ---------------------------------------------------------------- family room

  /** A family-room route: receiver input, optional streaming-box app, TV input. */
  datatype FrRoute = FrRoute(receiverInput: string, rokuApp: Option<string>, tvInput: string)

  /** The route of a name no case lists: receiver and TV on HDMI1, the name itself as the app. */
  function FrDefaultRoute(s: string): FrRoute {
    FrRoute("HDMI1", Some(s), "HDMI1")
  }

  /** The family-room selection: the case lists of the switch, in order. */
  function FrRouteOf(s: string): FrRoute {
    match s
    case "TV" | "T" | "V" => FrRoute("AV1", None, "InputTV")
    case "RETRO PI" | "RETRO PIE" | "RETROPI" | "RETROPIE" | "RETROPOT" | "RETROBY" | "RETRO" | "PIE" | "PI" => FrRoute("AV1", None, "HDMI2")
    case "PSTHREE" | "PS3" | "THREE" | "3" | "P.S.3" => FrRoute("HDMI4", None, "HDMI1")
    case "PSFOUR" | "PS4" | "FOUR" | "4" | "P.S.4" => FrRoute("HDMI2", None, "HDMI1")
    case "PSFIVE" | "PS5" | "FIVE" | "5" | "P.S.5" => FrRoute("AV1", None, "HDMI3")
    case "WIIU" | "WIYOU" | "WILLYOU" | "WEYOU" | "WEEYOU" | "WE" | "WEE" | "WE'LL" => FrRoute("HDMI3", None, "HDMI1")
    case "FIRETV" | "FIRE" | "ROKU" => FrRoute("HDMI1", None, "HDMI1")
    case "SWITCH" => FrRoute("HDMI5", None, "HDMI1")
    case "XBOX" => FrRoute("V-AUX", None, "HDMI1")
    case "DCUNIVERSE" => FrRoute("HDMI1", Some("DC Universe"), "HDMI1")
    case "DAILYBURN" => FrRoute("HDMI1", Some("Daily Burn"), "HDMI1")
    case "NETFLIX" | "NET" | "FLIX" => FrRoute("HDMI1", Some("Netflix"), "HDMI1")
    case "PLEX" | "PLAQUES" => FrRoute("HDMI1", Some("Plex"), "HDMI1")
    case "PRIME" | "AMAZON" => FrRoute("HDMI1", Some("Prime Video"), "HDMI1")
    case "HBO" => FrRoute("HDMI1", Some("HBO GO"), "HDMI1")
    case "CRUNCHYROLL" => FrRoute("HDMI1", Some("Crunchyroll"), "HDMI1")
    case "HGTV" => FrRoute("HDMI1", Some("Watch HGTV"), "HDMI1")
    case "STARS" => FrRoute("HDMI1", Some("STARZ"), "HDMI1")
    case "PBS" => FrRoute("HDMI1", Some("PBS Video"), "HDMI1")
    case "SHOWTIME" => FrRoute("HDMI1", Some("Showtime Anytime"), "HDMI1")
    case "YOUTUBE" => FrRoute("HDMI1", Some("YouTube"), "HDMI1")
    case "NATGEOTV" | "NATGEO" => FrRoute("HDMI1", Some("NatGeoTV"), "HDMI1")
    case "SMITHSONIAN" => FrRoute("HDMI1", Some("Smithsonian Channel"), "HDMI1")
    case _ => FrDefaultRoute(s)
  }

  /**
   * The calls of a family-room route: exactly one receiver PUT, first; then
   * at most one streaming-box input POST; then TV power-on, the pause and
   * the TV input command. No other PUT and no other pause occur.
   */
  function FrCalls(r: FrRoute): seq<Call> {
    [Put(FrReceiver, ReceiverInputPatch(r.receiverInput))]
      + RokuInput(FrRoku, r.rokuApp) + TvSwitch(FrTv, r.tvInput)
  }

  /**
   * Every family-room input change, the default one included: exactly one
   * receiver PUT, first; then at most one streaming-box input POST; then TV
   * power-on, the pause and the TV input command. No other PUT and no
   * other pause occur.
   */
  lemma FrResolveShape(s: string)
    ensures var c, r := FrResolve(s), FrRouteOf(s);
      && |c| == (if r.rokuApp.Some? then 5 else 4)
      && c[0] == Put(FrReceiver, ReceiverInputPatch(r.receiverInput))
      && (r.rokuApp.Some? ==> c[1] == Post(FrRoku, "input", r.rokuApp.value))
      && c[|c| - 3..] == TvSwitch(FrTv, r.tvInput)
      && (forall i :: 0 < i < |c| ==> !c[i].Put?)
      && (forall i :: 0 <= i < |c| ==> (c[i].Pause? <==> i == |c| - 2))
  {
  }

  /** The calls that switching the family room to input `s` launches. */
  function FrResolve(s: string): seq<Call> {
    FrCalls(FrRouteOf(s))
  }

  /** The calls of a family-room route as one list. */
  lemma FrCallsList(r: FrRoute)
    ensures FrCalls(r) == if r.rokuApp.Some?
      then [Put(FrReceiver, ReceiverInputPatch(r.receiverInput)), Post(FrRoku, "input", r.rokuApp.value),
            Post(FrTv, "PowerOn", ""), Pause, Post(FrTv, r.tvInput, "")]
      else [Put(FrReceiver, ReceiverInputPatch(r.receiverInput)),
            Post(FrTv, "PowerOn", ""), Pause, Post(FrTv, r.tvInput, "")]
  {
  }

  /** A family-room input change drives family-room devices only. */
  lemma FrResolveInRoom(s: string)
    ensures forall c :: c in FrResolve(s) ==> InRoom(FamilyRoom, c)
  {
    FrCallsList(FrRouteOf(s));
  }

  /**
   * The family-room alias table: each case list of the switch with its route.
   * The switch `FrRouteOf` is the reference copy of the case lists. `FrSetInput`,
   * this table and the literal lists are each proved to agree with it (by the
   * ensures of `FrSetInput`, by `FrSwitchIsTableLookup` and by the `FrRowKAgrees`
   * lemmas). The row lemmas and the `FrMissesPart` lemmas repeat each list as a
   * literal, which keeps those proofs small.
   */
  const FrRow0 := AliasRow(["TV", "T", "V"], FrRoute("AV1", None, "InputTV"))
  const FrRow1 := AliasRow(["RETRO PI", "RETRO PIE", "RETROPI", "RETROPIE", "RETROPOT", "RETROBY", "RETRO", "PIE", "PI"], FrRoute("AV1", None, "HDMI2"))
  const FrRow2 := AliasRow(["PSTHREE", "PS3", "THREE", "3", "P.S.3"], FrRoute("HDMI4", None, "HDMI1"))
  const FrRow3 := AliasRow(["PSFOUR", "PS4", "FOUR", "4", "P.S.4"], FrRoute("HDMI2", None, "HDMI1"))
  const FrRow4 := AliasRow(["PSFIVE", "PS5", "FIVE", "5", "P.S.5"], FrRoute("AV1", None, "HDMI3"))
  const FrRow5 := AliasRow(["WIIU", "WIYOU", "WILLYOU", "WEYOU", "WEEYOU", "WE", "WEE", "WE'LL"], FrRoute("HDMI3", None, "HDMI1"))
  const FrRow6 := AliasRow(["FIRETV", "FIRE", "ROKU"], FrRoute("HDMI1", None, "HDMI1"))
  const FrRow7 := AliasRow(["SWITCH"], FrRoute("HDMI5", None, "HDMI1"))
  const FrRow8 := AliasRow(["XBOX"], FrRoute("V-AUX", None, "HDMI1"))
  const FrRow9 := AliasRow(["DCUNIVERSE"], FrRoute("HDMI1", Some("DC Universe"), "HDMI1"))
  const FrRow10 := AliasRow(["DAILYBURN"], FrRoute("HDMI1", Some("Daily Burn"), "HDMI1"))
  const FrRow11 := AliasRow(["NETFLIX", "NET", "FLIX"], FrRoute("HDMI1", Some("Netflix"), "HDMI1"))
  const FrRow12 := AliasRow(["PLEX", "PLAQUES"], FrRoute("HDMI1", Some("Plex"), "HDMI1"))
  const FrRow13 := AliasRow(["PRIME", "AMAZON"], FrRoute("HDMI1", Some("Prime Video"), "HDMI1"))
  const FrRow14 := AliasRow(["HBO"], FrRoute("HDMI1", Some("HBO GO"), "HDMI1"))
  const FrRow15 := AliasRow(["CRUNCHYROLL"], FrRoute("HDMI1", Some("Crunchyroll"), "HDMI1"))
  const FrRow16 := AliasRow(["HGTV"], FrRoute("HDMI1", Some("Watch HGTV"), "HDMI1"))
  const FrRow17 := AliasRow(["STARS"], FrRoute("HDMI1", Some("STARZ"), "HDMI1"))
  const FrRow18 := AliasRow(["PBS"], FrRoute("HDMI1", Some("PBS Video"), "HDMI1"))
  const FrRow19 := AliasRow(["SHOWTIME"], FrRoute("HDMI1", Some("Showtime Anytime"), "HDMI1"))
  const FrRow20 := AliasRow(["YOUTUBE"], FrRoute("HDMI1", Some("YouTube"), "HDMI1"))
  const FrRow21 := AliasRow(["NATGEOTV", "NATGEO"], FrRoute("HDMI1", Some("NatGeoTV"), "HDMI1"))
  const FrRow22 := AliasRow(["SMITHSONIAN"], FrRoute("HDMI1", Some("Smithsonian Channel"), "HDMI1"))

  const FrAliasTable: seq<AliasRow<FrRoute>> := [
    FrRow0, FrRow1, FrRow2, FrRow3, FrRow4, FrRow5, FrRow6, FrRow7, FrRow8, FrRow9, FrRow10,
    FrRow11, FrRow12, FrRow13, FrRow14, FrRow15, FrRow16, FrRow17, FrRow18, FrRow19, FrRow20,
    FrRow21, FrRow22
  ]

  lemma FrRow0Agrees(s: string)
    requires s in ["TV", "T", "V"]
    ensures FrRouteOf(s) == FrRoute("AV1", None, "InputTV")
  {
  }

  lemma FrRow1Agrees(s: string)
    requires s in ["RETRO PI", "RETRO PIE", "RETROPI", "RETROPIE", "RETROPOT", "RETROBY", "RETRO", "PIE", "PI"]
    ensures FrRouteOf(s) == FrRoute("AV1", None, "HDMI2")
  {
  }

  lemma FrRow2Agrees(s: string)
    requires s in ["PSTHREE", "PS3", "THREE", "3", "P.S.3"]
    ensures FrRouteOf(s) == FrRoute("HDMI4", None, "HDMI1")
  {
  }

  lemma FrRow3Agrees(s: string)
    requires s in ["PSFOUR", "PS4", "FOUR", "4", "P.S.4"]
    ensures FrRouteOf(s) == FrRoute("HDMI2", None, "HDMI1")
  {
  }

  lemma FrRow4Agrees(s: string)
    requires s in ["PSFIVE", "PS5", "FIVE", "5", "P.S.5"]
    ensures FrRouteOf(s) == FrRoute("AV1", None, "HDMI3")
  {
  }

  lemma FrRow5Agrees(s: string)
    requires s in ["WIIU", "WIYOU", "WILLYOU", "WEYOU", "WEEYOU", "WE", "WEE", "WE'LL"]
    ensures FrRouteOf(s) == FrRoute("HDMI3", None, "HDMI1")
  {
  }

  lemma FrRow6Agrees(s: string)
    requires s in ["FIRETV", "FIRE", "ROKU"]
    ensures FrRouteOf(s) == FrRoute("HDMI1", None, "HDMI1")
  {
  }

  lemma FrRow7Agrees(s: string)
    requires s in ["SWITCH"]
    ensures FrRouteOf(s) == FrRoute("HDMI5", None, "HDMI1")
  {
  }

  lemma FrRow8Agrees(s: string)
    requires s in ["XBOX"]
    ensures FrRouteOf(s) == FrRoute("V-AUX", None, "HDMI1")
  {
  }

  lemma FrRow9Agrees(s: string)
    requires s in ["DCUNIVERSE"]
    ensures FrRouteOf(s) == FrRoute("HDMI1", Some("DC Universe"), "HDMI1")
  {
  }

  lemma FrRow10Agrees(s: string)
    requires s in ["DAILYBURN"]
    ensures FrRouteOf(s) == FrRoute("HDMI1", Some("Daily Burn"), "HDMI1")
  {
  }

  lemma FrRow11Agrees(s: string)
    requires s in ["NETFLIX", "NET", "FLIX"]
    ensures FrRouteOf(s) == FrRoute("HDMI1", Some("Netflix"), "HDMI1")
  {
  }

  lemma FrRow12Agrees(s: string)
    requires s in ["PLEX", "PLAQUES"]
    ensures FrRouteOf(s) == FrRoute("HDMI1", Some("Plex"), "HDMI1")
  {
  }

  lemma FrRow13Agrees(s: string)
    requires s in ["PRIME", "AMAZON"]
    ensures FrRouteOf(s) == FrRoute("HDMI1", Some("Prime Video"), "HDMI1")
  {
  }

  lemma FrRow14Agrees(s: string)
    requires s in ["HBO"]
    ensures FrRouteOf(s) == FrRoute("HDMI1", Some("HBO GO"), "HDMI1")
  {
  }

  lemma FrRow15Agrees(s: string)
    requires s in ["CRUNCHYROLL"]
    ensures FrRouteOf(s) == FrRoute("HDMI1", Some("Crunchyroll"), "HDMI1")
  {
  }

  lemma FrRow16Agrees(s: string)
    requires s in ["HGTV"]
    ensures FrRouteOf(s) == FrRoute("HDMI1", Some("Watch HGTV"), "HDMI1")
  {
  }

  lemma FrRow17Agrees(s: string)
    requires s in ["STARS"]
    ensures FrRouteOf(s) == FrRoute("HDMI1", Some("STARZ"), "HDMI1")
  {
  }

  lemma FrRow18Agrees(s: string)
    requires s in ["PBS"]
    ensures FrRouteOf(s) == FrRoute("HDMI1", Some("PBS Video"), "HDMI1")
  {
  }

  lemma FrRow19Agrees(s: string)
    requires s in ["SHOWTIME"]
    ensures FrRouteOf(s) == FrRoute("HDMI1", Some("Showtime Anytime"), "HDMI1")
  {
  }

  lemma FrRow20Agrees(s: string)
    requires s in ["YOUTUBE"]
    ensures FrRouteOf(s) == FrRoute("HDMI1", Some("YouTube"), "HDMI1")
  {
  }

  lemma FrRow21Agrees(s: string)
    requires s in ["NATGEOTV", "NATGEO"]
    ensures FrRouteOf(s) == FrRoute("HDMI1", Some("NatGeoTV"), "HDMI1")
  {
  }

  lemma FrRow22Agrees(s: string)
    requires s in ["SMITHSONIAN"]
    ensures FrRouteOf(s) == FrRoute("HDMI1", Some("Smithsonian Channel"), "HDMI1")
  {
  }

  /** Table agreement for one block of six rows, which keeps each proof small. */
  lemma FrTablePart0Agrees(k: nat, s: string)
    requires 0 <= k <= 5 && s in FrAliasTable[k].aliases
    ensures FrRouteOf(s) == FrAliasTable[k].route
  {
    match k {
      case 0 => FrRow0Agrees(s);
      case 1 => FrRow1Agrees(s);
      case 2 => FrRow2Agrees(s);
      case 3 => FrRow3Agrees(s);
      case 4 => FrRow4Agrees(s);
      case 5 => FrRow5Agrees(s);
    }
  }

  lemma FrTablePart1Agrees(k: nat, s: string)
    requires 6 <= k <= 11 && s in FrAliasTable[k].aliases
    ensures FrRouteOf(s) == FrAliasTable[k].route
  {
    match k {
      case 6 => FrRow6Agrees(s);
      case 7 => FrRow7Agrees(s);
      case 8 => FrRow8Agrees(s);
      case 9 => FrRow9Agrees(s);
      case 10 => FrRow10Agrees(s);
      case 11 => FrRow11Agrees(s);
    }
  }

  lemma FrTablePart2Agrees(k: nat, s: string)
    requires 12 <= k <= 17 && s in FrAliasTable[k].aliases
    ensures FrRouteOf(s) == FrAliasTable[k].route
  {
    match k {
      case 12 => FrRow12Agrees(s);
      case 13 => FrRow13Agrees(s);
      case 14 => FrRow14Agrees(s);
      case 15 => FrRow15Agrees(s);
      case 16 => FrRow16Agrees(s);
      case 17 => FrRow17Agrees(s);
    }
  }

  lemma FrTablePart3Agrees(k: nat, s: string)
    requires 18 <= k <= 22 && s in FrAliasTable[k].aliases
    ensures FrRouteOf(s) == FrAliasTable[k].route
  {
    match k {
      case 18 => FrRow18Agrees(s);
      case 19 => FrRow19Agrees(s);
      case 20 => FrRow20Agrees(s);
      case 21 => FrRow21Agrees(s);
      case 22 => FrRow22Agrees(s);
    }
  }

  /** Every name of row `k` selects row `k`'s route. */
  lemma FrTableAgrees(k: nat, s: string)
    requires k < |FrAliasTable| && s in FrAliasTable[k].aliases
    ensures FrRouteOf(s) == FrAliasTable[k].route
  {
    if k <= 5 {
      FrTablePart0Agrees(k, s);
    } else if k <= 11 {
      FrTablePart1Agrees(k, s);
    } else if k <= 17 {
      FrTablePart2Agrees(k, s);
    } else {
      FrTablePart3Agrees(k, s);
    }
  }

  /** An unlisted name is in none of one block of six case lists. */
  lemma FrMissesPart0(s: string)
    requires !Listed(FrAliasTable, s)
    ensures s !in ["TV", "T", "V"]
    ensures s !in ["RETRO PI", "RETRO PIE", "RETROPI", "RETROPIE", "RETROPOT", "RETROBY", "RETRO", "PIE", "PI"]
    ensures s !in ["PSTHREE", "PS3", "THREE", "3", "P.S.3"]
    ensures s !in ["PSFOUR", "PS4", "FOUR", "4", "P.S.4"]
    ensures s !in ["PSFIVE", "PS5", "FIVE", "5", "P.S.5"]
    ensures s !in ["WIIU", "WIYOU", "WILLYOU", "WEYOU", "WEEYOU", "WE", "WEE", "WE'LL"]
  {
    assert s !in FrAliasTable[0].aliases;
    assert s !in FrAliasTable[1].aliases;
    assert s !in FrAliasTable[2].aliases;
    assert s !in FrAliasTable[3].aliases;
    assert s !in FrAliasTable[4].aliases;
    assert s !in FrAliasTable[5].aliases;
  }

  lemma FrMissesPart1(s: string)
    requires !Listed(FrAliasTable, s)
    ensures s !in ["FIRETV", "FIRE", "ROKU"]
    ensures s !in ["SWITCH"]
    ensures s !in ["XBOX"]
    ensures s !in ["DCUNIVERSE"]
    ensures s !in ["DAILYBURN"]
    ensures s !in ["NETFLIX", "NET", "FLIX"]
  {
    assert s !in FrAliasTable[6].aliases;
    assert s !in FrAliasTable[7].aliases;
    assert s !in FrAliasTable[8].aliases;
    assert s !in FrAliasTable[9].aliases;
    assert s !in FrAliasTable[10].aliases;
    assert s !in FrAliasTable[11].aliases;
  }

  lemma FrMissesPart2(s: string)
    requires !Listed(FrAliasTable, s)
    ensures s !in ["PLEX", "PLAQUES"]
    ensures s !in ["PRIME", "AMAZON"]
    ensures s !in ["HBO"]
    ensures s !in ["CRUNCHYROLL"]
    ensures s !in ["HGTV"]
    ensures s !in ["STARS"]
  {
    assert s !in FrAliasTable[12].aliases;
    assert s !in FrAliasTable[13].aliases;
    assert s !in FrAliasTable[14].aliases;
    assert s !in FrAliasTable[15].aliases;
    assert s !in FrAliasTable[16].aliases;
    assert s !in FrAliasTable[17].aliases;
  }

  lemma FrMissesPart3(s: string)
    requires !Listed(FrAliasTable, s)
    ensures s !in ["PBS"]
    ensures s !in ["SHOWTIME"]
    ensures s !in ["YOUTUBE"]
    ensures s !in ["NATGEOTV", "NATGEO"]
    ensures s !in ["SMITHSONIAN"]
  {
    assert s !in FrAliasTable[18].aliases;
    assert s !in FrAliasTable[19].aliases;
    assert s !in FrAliasTable[20].aliases;
    assert s !in FrAliasTable[21].aliases;
    assert s !in FrAliasTable[22].aliases;
  }

  /** A name no row lists takes the default route. */
  lemma FrUnlisted(s: string)
    requires !Listed(FrAliasTable, s)
    ensures FrRouteOf(s) == FrDefaultRoute(s)
  {
    FrMissesPart0(s);
    FrMissesPart1(s);
    FrMissesPart2(s);
    FrMissesPart3(s);
  }

  /**
   * A name no row lists switches the receiver and the TV to HDMI1 and asks
   * the streaming box to open an app of that very name.
   */
  lemma FrUnlistedCalls(s: string)
    requires !Listed(FrAliasTable, s)
    ensures FrResolve(s) == [Put(FrReceiver, ReceiverInputPatch("HDMI1")), Post(FrRoku, "input", s)]
                            + TvSwitch(FrTv, "HDMI1")
  {
    FrUnlisted(s);
    FrCallsList(FrDefaultRoute(s));
  }

  /** The switch is first-match lookup in the alias table, with the default route for a miss. */
  lemma FrSwitchIsTableLookup(s: string)
    ensures FrRouteOf(s) == Lookup(FrAliasTable, s).GetOr(FrDefaultRoute(s))
  {
    LookupMissesUnlisted(FrAliasTable, s);
    if Lookup(FrAliasTable, s).Some? {
      LookupFromRow(FrAliasTable, s);
      var k :| 0 <= k < |FrAliasTable| && s in FrAliasTable[k].aliases
               && FrAliasTable[k].route == Lookup(FrAliasTable, s).value;
      FrTableAgrees(k, s);
    } else {
      FrUnlisted(s);
    }
  }

  /** Alias invariance: all names of one row launch identical calls. */
  lemma FrAliasInvariance(k: nat, a: string, b: string)
    requires k < |FrAliasTable| && a in FrAliasTable[k].aliases && b in FrAliasTable[k].aliases
    ensures FrResolve(a) == FrResolve(b)
  {
    FrTableAgrees(k, a);
    FrTableAgrees(k, b);
  }

  /**
   * The two names with a space in them are never selected, since normalised
   * input has no space; their space-free spellings select the same route.
   */
  lemma FrSpacedAliasesUnreachable(raw: string)
    ensures "RETRO PI" in FrAliasTable[1].aliases && "RETRO PIE" in FrAliasTable[1].aliases
    ensures FrRouteOf("RETROPI") == FrRouteOf("RETRO PI") && FrRouteOf("RETROPIE") == FrRouteOf("RETRO PIE")
    ensures forall k, a :: 0 <= k < |FrAliasTable| && a in FrAliasTable[k].aliases && ' ' in a ==>
              NormaliseInput(raw) != a
  {
  }

  // -------------------------------------------------------------- master bedroom

  /** A master-bedroom route: optional streaming-box app, TV input. There is no receiver. */
  datatype MbRoute = MbRoute(rokuApp: Option<string>, tvInput: string)

  function MbDefaultRoute(s: string): MbRoute {
    MbRoute(Some(s), "HDMI1")
  }

  /** The master-bedroom selection: the case lists of the switch, in order. */
  function MbRouteOf(s: string): MbRoute {
    match s
    case "TV" | "T" | "V" => MbRoute(None, "InputTV")
    case "PS2" | "TWO" | "2" | "PSTWO" | "PS" => MbRoute(None, "InputAV1")
    case "WII" | "WI" | "WILL" | "WE" | "WEEK" | "WIFI" | "WEE" | "WE'LL" => MbRoute(None, "InputComponent1")
    case "SWITCH" => MbRoute(None, "HDMI2")
    case "DAILYBURN" => MbRoute(Some("Daily Burn"), "HDMI1")
    case "NETFLIX" | "NET" | "FLIX" => MbRoute(Some("Netflix"), "HDMI1")
    case "PLEX" | "PLAQUES" => MbRoute(Some("Plex"), "HDMI1")
    case "PRIME" | "AMAZON" => MbRoute(Some("Prime Video"), "HDMI1")
    case "HBO" => MbRoute(Some("HBO GO"), "HDMI1")
    case "CRUNCHYROLL" => MbRoute(Some("Crunchyroll"), "HDMI1")
    case "HGTV" => MbRoute(Some("Watch HGTV"), "HDMI1")
    case "STARS" => MbRoute(Some("STARZ"), "HDMI1")
    case "PBS" => MbRoute(Some("PBS Video"), "HDMI1")
    case "SHOWTIME" => MbRoute(Some("Showtime Anytime"), "HDMI1")
    case "YOUTUBE" => MbRoute(Some("YouTube"), "HDMI1")
    case "NATGEOTV" | "NATGEO" => MbRoute(Some("NatGeoTV"), "HDMI1")
    case "SMITHSONIAN" => MbRoute(Some("Smithsonian Channel"), "HDMI1")
    case _ => MbDefaultRoute(s)
  }

  /**
   * The calls of a master-bedroom route: at most one streaming-box input
   * POST, then TV power-on, the pause and the TV input command; never a
   * receiver PUT.
   */
  function MbCalls(r: MbRoute): seq<Call> {
    RokuInput(MbRoku, r.rokuApp) + TvSwitch(MbTv, r.tvInput)
  }

  function MbResolve(s: string): seq<Call> {
    MbCalls(MbRouteOf(s))
  }

  /** The calls of a master-bedroom route as one list. */
  lemma MbCallsList(r: MbRoute)
    ensures MbCalls(r) == if r.rokuApp.Some?
      then [Post(MbRoku, "input", r.rokuApp.value), Post(MbTv, "PowerOn", ""), Pause, Post(MbTv, r.tvInput, "")]
      else [Post(MbTv, "PowerOn", ""), Pause, Post(MbTv, r.tvInput, "")]
  {
  }

  /**
   * Every master-bedroom input change, the default one included: at most
   * one streaming-box input POST, then TV power-on, the pause and the TV
   * input command; never a receiver PUT.
   */
  lemma MbResolveShape(s: string)
    ensures var c, r := MbResolve(s), MbRouteOf(s);
      && |c| == (if r.rokuApp.Some? then 4 else 3)
      && (r.rokuApp.Some? ==> c[0] == Post(MbRoku, "input", r.rokuApp.value))
      && c[|c| - 3..] == TvSwitch(MbTv, r.tvInput)
      && (forall i :: 0 <= i < |c| ==> !c[i].Put?)
      && (forall i :: 0 <= i < |c| ==> (c[i].Pause? <==> i == |c| - 2))
  {
  }

  /** A master-bedroom input change drives master-bedroom devices only, and never PUTs. */
  lemma MbResolveInRoom(s: string)
    ensures forall c :: c in MbResolve(s) ==> InRoom(MasterBedroom, c) && !c.Put?
  {
    MbCallsList(MbRouteOf(s));
  }

  /**
   * The master-bedroom alias table: each case list of the switch with its route.
   * The switch `MbRouteOf` is the reference copy of the case lists. `MbSetInput`,
   * this table and the literal lists are each proved to agree with it (by the
   * ensures of `MbSetInput`, by `MbSwitchIsTableLookup` and by the `MbRowKAgrees`
   * lemmas). The row lemmas repeat each list as a literal, which keeps those
   * proofs small.
   */
  const MbRow0 := AliasRow(["TV", "T", "V"], MbRoute(None, "InputTV"))
  const MbRow1 := AliasRow(["PS2", "TWO", "2", "PSTWO", "PS"], MbRoute(None, "InputAV1"))
  const MbRow2 := AliasRow(["WII", "WI", "WILL", "WE", "WEEK", "WIFI", "WEE", "WE'LL"], MbRoute(None, "InputComponent1"))
  const MbRow3 := AliasRow(["SWITCH"], MbRoute(None, "HDMI2"))
  const MbRow4 := AliasRow(["DAILYBURN"], MbRoute(Some("Daily Burn"), "HDMI1"))
  const MbRow5 := AliasRow(["NETFLIX", "NET", "FLIX"], MbRoute(Some("Netflix"), "HDMI1"))
  const MbRow6 := AliasRow(["PLEX", "PLAQUES"], MbRoute(Some("Plex"), "HDMI1"))
  const MbRow7 := AliasRow(["PRIME", "AMAZON"], MbRoute(Some("Prime Video"), "HDMI1"))
  const MbRow8 := AliasRow(["HBO"], MbRoute(Some("HBO GO"), "HDMI1"))
  const MbRow9 := AliasRow(["CRUNCHYROLL"], MbRoute(Some("Crunchyroll"), "HDMI1"))
  const MbRow10 := AliasRow(["HGTV"], MbRoute(Some("Watch HGTV"), "HDMI1"))
  const MbRow11 := AliasRow(["STARS"], MbRoute(Some("STARZ"), "HDMI1"))
  const MbRow12 := AliasRow(["PBS"], MbRoute(Some("PBS Video"), "HDMI1"))
  const MbRow13 := AliasRow(["SHOWTIME"], MbRoute(Some("Showtime Anytime"), "HDMI1"))
  const MbRow14 := AliasRow(["YOUTUBE"], MbRoute(Some("YouTube"), "HDMI1"))
  const MbRow15 := AliasRow(["NATGEOTV", "NATGEO"], MbRoute(Some("NatGeoTV"), "HDMI1"))
  const MbRow16 := AliasRow(["SMITHSONIAN"], MbRoute(Some("Smithsonian Channel"), "HDMI1"))

  const MbAliasTable: seq<AliasRow<MbRoute>> := [
    MbRow0, MbRow1, MbRow2, MbRow3, MbRow4, MbRow5, MbRow6, MbRow7, MbRow8, MbRow9, MbRow10,
    MbRow11, MbRow12, MbRow13, MbRow14, MbRow15, MbRow16
  ]

  lemma MbRow0Agrees(s: string)
    requires s in ["TV", "T", "V"]
    ensures MbRouteOf(s) == MbRoute(None, "InputTV")
  {
  }

  lemma MbRow1Agrees(s: string)
    requires s in ["PS2", "TWO", "2", "PSTWO", "PS"]
    ensures MbRouteOf(s) == MbRoute(None, "InputAV1")
  {
  }

  lemma MbRow2Agrees(s: string)
    requires s in ["WII", "WI", "WILL", "WE", "WEEK", "WIFI", "WEE", "WE'LL"]
    ensures MbRouteOf(s) == MbRoute(None, "InputComponent1")
  {
  }

  lemma MbRow3Agrees(s: string)
    requires s in ["SWITCH"]
    ensures MbRouteOf(s) == MbRoute(None, "HDMI2")
  {
  }

  lemma MbRow4Agrees(s: string)
    requires s in ["DAILYBURN"]
    ensures MbRouteOf(s) == MbRoute(Some("Daily Burn"), "HDMI1")
  {
  }

  lemma MbRow5Agrees(s: string)
    requires s in ["NETFLIX", "NET", "FLIX"]
    ensures MbRouteOf(s) == MbRoute(Some("Netflix"), "HDMI1")
  {
  }

  lemma MbRow6Agrees(s: string)
    requires s in ["PLEX", "PLAQUES"]
    ensures MbRouteOf(s) == MbRoute(Some("Plex"), "HDMI1")
  {
  }

  lemma MbRow7Agrees(s: string)
    requires s in ["PRIME", "AMAZON"]
    ensures MbRouteOf(s) == MbRoute(Some("Prime Video"), "HDMI1")
  {
  }

  lemma MbRow8Agrees(s: string)
    requires s in ["HBO"]
    ensures MbRouteOf(s) == MbRoute(Some("HBO GO"), "HDMI1")
  {
  }

  lemma MbRow9Agrees(s: string)
    requires s in ["CRUNCHYROLL"]
    ensures MbRouteOf(s) == MbRoute(Some("Crunchyroll"), "HDMI1")
  {
  }

  lemma MbRow10Agrees(s: string)
    requires s in ["HGTV"]
    ensures MbRouteOf(s) == MbRoute(Some("Watch HGTV"), "HDMI1")
  {
  }

  lemma MbRow11Agrees(s: string)
    requires s in ["STARS"]
    ensures MbRouteOf(s) == MbRoute(Some("STARZ"), "HDMI1")
  {
  }

  lemma MbRow12Agrees(s: string)
    requires s in ["PBS"]
    ensures MbRouteOf(s) == MbRoute(Some("PBS Video"), "HDMI1")
  {
  }

  lemma MbRow13Agrees(s: string)
    requires s in ["SHOWTIME"]
    ensures MbRouteOf(s) == MbRoute(Some("Showtime Anytime"), "HDMI1")
  {
  }

  lemma MbRow14Agrees(s: string)
    requires s in ["YOUTUBE"]
    ensures MbRouteOf(s) == MbRoute(Some("YouTube"), "HDMI1")
  {
  }

  lemma MbRow15Agrees(s: string)
    requires s in ["NATGEOTV", "NATGEO"]
    ensures MbRouteOf(s) == MbRoute(Some("NatGeoTV"), "HDMI1")
  {
  }

  lemma MbRow16Agrees(s: string)
    requires s in ["SMITHSONIAN"]
    ensures MbRouteOf(s) == MbRoute(Some("Smithsonian Channel"), "HDMI1")
  {
  }

  /** Table agreement for one block of six rows, which keeps each proof small. */
  lemma MbTablePart0Agrees(k: nat, s: string)
    requires 0 <= k <= 5 && s in MbAliasTable[k].aliases
    ensures MbRouteOf(s) == MbAliasTable[k].route
  {
    match k {
      case 0 => MbRow0Agrees(s);
      case 1 => MbRow1Agrees(s);
      case 2 => MbRow2Agrees(s);
      case 3 => MbRow3Agrees(s);
      case 4 => MbRow4Agrees(s);
      case 5 => MbRow5Agrees(s);
    }
  }

  lemma MbTablePart1Agrees(k: nat, s: string)
    requires 6 <= k <= 11 && s in MbAliasTable[k].aliases
    ensures MbRouteOf(s) == MbAliasTable[k].route
  {
    match k {
      case 6 => MbRow6Agrees(s);
      case 7 => MbRow7Agrees(s);
      case 8 => MbRow8Agrees(s);
      case 9 => MbRow9Agrees(s);
      case 10 => MbRow10Agrees(s);
      case 11 => MbRow11Agrees(s);
    }
  }

  lemma MbTablePart2Agrees(k: nat, s: string)
    requires 12 <= k <= 16 && s in MbAliasTable[k].aliases
    ensures MbRouteOf(s) == MbAliasTable[k].route
  {
    match k {
      case 12 => MbRow12Agrees(s);
      case 13 => MbRow13Agrees(s);
      case 14 => MbRow14Agrees(s);
      case 15 => MbRow15Agrees(s);
      case 16 => MbRow16Agrees(s);
    }
  }

  /** Every name of row `k` selects row `k`'s route. */
  lemma MbTableAgrees(k: nat, s: string)
    requires k < |MbAliasTable| && s in MbAliasTable[k].aliases
    ensures MbRouteOf(s) == MbAliasTable[k].route
  {
    if k <= 5 {
      MbTablePart0Agrees(k, s);
    } else if k <= 11 {
      MbTablePart1Agrees(k, s);
    } else {
      MbTablePart2Agrees(k, s);
    }
  }

  /** A name no row lists opens itself as the streaming-box app and selects HDMI1. */
  lemma MbUnlisted(s: string)
    requires !Listed(MbAliasTable, s)
    ensures MbRouteOf(s) == MbDefaultRoute(s)
    ensures MbResolve(s) == [Post(MbRoku, "input", s)] + TvSwitch(MbTv, "HDMI1")
  {
    assert s !in MbAliasTable[0].aliases;
    assert s !in MbAliasTable[1].aliases;
    assert s !in MbAliasTable[2].aliases;
    assert s !in MbAliasTable[3].aliases;
    assert s !in MbAliasTable[4].aliases;
    assert s !in MbAliasTable[5].aliases;
    assert s !in MbAliasTable[6].aliases;
    assert s !in MbAliasTable[7].aliases;
    assert s !in MbAliasTable[8].aliases;
    assert s !in MbAliasTable[9].aliases;
    assert s !in MbAliasTable[10].aliases;
    assert s !in MbAliasTable[11].aliases;
    assert s !in MbAliasTable[12].aliases;
    assert s !in MbAliasTable[13].aliases;
    assert s !in MbAliasTable[14].aliases;
    assert s !in MbAliasTable[15].aliases;
    assert s !in MbAliasTable[16].aliases;
  }

  lemma MbSwitchIsTableLookup(s: string)
    ensures MbRouteOf(s) == Lookup(MbAliasTable, s).GetOr(MbDefaultRoute(s))
  {
    LookupMissesUnlisted(MbAliasTable, s);
    if Lookup(MbAliasTable, s).Some? {
      LookupFromRow(MbAliasTable, s);
      var k :| 0 <= k < |MbAliasTable| && s in MbAliasTable[k].aliases
               && MbAliasTable[k].route == Lookup(MbAliasTable, s).value;
      MbTableAgrees(k, s);
    } else {
      MbUnlisted(s);
    }
  }

  lemma MbAliasInvariance(k: nat, a: string, b: string)
    requires k < |MbAliasTable| && a in MbAliasTable[k].aliases && b in MbAliasTable[k].aliases
    ensures MbResolve(a) == MbResolve(b)
  {
    MbTableAgrees(k, a);
    MbTableAgrees(k, b);
  }

  // ------------------------------------------------------------------- per room

  function Resolve(room: Room, s: string): seq<Call> {
    match room
    case FamilyRoom => FrResolve(s)
    case MasterBedroom => MbResolve(s)
  }

  // ------------------------------------------------ the switches, step by step

  /** The calls of a family-room route, in the order the switch appends them. */
  lemma FrCallsSteps(r: FrRoute)
    ensures r.rokuApp.Some? ==>
      FrCalls(r) == [] + [Put(FrReceiver, ReceiverInputPatch(r.receiverInput))] + [Post(FrRoku, "input", r.rokuApp.value)]
        + [Post(FrTv, "PowerOn", "")] + [Pause] + [Post(FrTv, r.tvInput, "")]
    ensures r.rokuApp.None? ==>
      FrCalls(r) == [] + [Put(FrReceiver, ReceiverInputPatch(r.receiverInput))]
        + [Post(FrTv, "PowerOn", "")] + [Pause] + [Post(FrTv, r.tvInput, "")]
  {
  }

  /**
   * The family-room input switch as written: each case completes the
   * receiver payload with its receiver input, then launches its calls in order.
   */
  method FrSetInput(inputType: string) returns (launched: seq<Call>)
    ensures launched == FrResolve(inputType)
  {
    launched := [];
    var receiverPayload := ReceiverOnPatch;
    match inputType {
      case "TV" | "T" | "V" =>
        receiverPayload := receiverPayload + InputField("AV1");
        launched := launched + [Put(FrReceiver, receiverPayload)];
        launched := launched + [Post(FrTv, "PowerOn", "")];
        launched := launched + [Pause];
        launched := launched + [Post(FrTv, "InputTV", "")];
        FrCallsSteps(FrRoute("AV1", None, "InputTV"));
      case "RETRO PI" | "RETRO PIE" | "RETROPI" | "RETROPIE" | "RETROPOT" | "RETROBY" | "RETRO" | "PIE" | "PI" =>
        receiverPayload := receiverPayload + InputField("AV1");
        launched := launched + [Put(FrReceiver, receiverPayload)];
        launched := launched + [Post(FrTv, "PowerOn", "")];
        launched := launched + [Pause];
        launched := launched + [Post(FrTv, "HDMI2", "")];
        FrCallsSteps(FrRoute("AV1", None, "HDMI2"));
      case "PSTHREE" | "PS3" | "THREE" | "3" | "P.S.3" =>
        receiverPayload := receiverPayload + InputField("HDMI4");
        launched := launched + [Put(FrReceiver, receiverPayload)];
        launched := launched + [Post(FrTv, "PowerOn", "")];
        launched := launched + [Pause];
        launched := launched + [Post(FrTv, "HDMI1", "")];
        FrCallsSteps(FrRoute("HDMI4", None, "HDMI1"));
      case "PSFOUR" | "PS4" | "FOUR" | "4" | "P.S.4" =>
        receiverPayload := receiverPayload + InputField("HDMI2");
        launched := launched + [Put(FrReceiver, receiverPayload)];
        launched := launched + [Post(FrTv, "PowerOn", "")];
        launched := launched + [Pause];
        launched := launched + [Post(FrTv, "HDMI1", "")];
        FrCallsSteps(FrRoute("HDMI2", None, "HDMI1"));
      case "PSFIVE" | "PS5" | "FIVE" | "5" | "P.S.5" =>
        receiverPayload := receiverPayload + InputField("AV1");
        launched := launched + [Put(FrReceiver, receiverPayload)];
        launched := launched + [Post(FrTv, "PowerOn", "")];
        launched := launched + [Pause];
        launched := launched + [Post(FrTv, "HDMI3", "")];
        FrCallsSteps(FrRoute("AV1", None, "HDMI3"));
      case "WIIU" | "WIYOU" | "WILLYOU" | "WEYOU" | "WEEYOU" | "WE" | "WEE" | "WE'LL" =>
        receiverPayload := receiverPayload + InputField("HDMI3");
        launched := launched + [Put(FrReceiver, receiverPayload)];
        launched := launched + [Post(FrTv, "PowerOn", "")];
        launched := launched + [Pause];
        launched := launched + [Post(FrTv, "HDMI1", "")];
        FrCallsSteps(FrRoute("HDMI3", None, "HDMI1"));
      case "FIRETV" | "FIRE" | "ROKU" =>
        receiverPayload := receiverPayload + InputField("HDMI1");
        launched := launched + [Put(FrReceiver, receiverPayload)];
        launched := launched + [Post(FrTv, "PowerOn", "")];
        launched := launched + [Pause];
        launched := launched + [Post(FrTv, "HDMI1", "")];
        FrCallsSteps(FrRoute("HDMI1", None, "HDMI1"));
      case "SWITCH" =>
        receiverPayload := receiverPayload + InputField("HDMI5");
        launched := launched + [Put(FrReceiver, receiverPayload)];
        launched := launched + [Post(FrTv, "PowerOn", "")];
        launched := launched + [Pause];
        launched := launched + [Post(FrTv, "HDMI1", "")];
        FrCallsSteps(FrRoute("HDMI5", None, "HDMI1"));
      case "XBOX" =>
        receiverPayload := receiverPayload + InputField("V-AUX");
        launched := launched + [Put(FrReceiver, receiverPayload)];
        launched := launched + [Post(FrTv, "PowerOn", "")];
        launched := launched + [Pause];
        launched := launched + [Post(FrTv, "HDMI1", "")];
        FrCallsSteps(FrRoute("V-AUX", None, "HDMI1"));
      case "DCUNIVERSE" =>
        receiverPayload := receiverPayload + InputField("HDMI1");
        launched := launched + [Put(FrReceiver, receiverPayload)];
        launched := launched + [Post(FrRoku, "input", "DC Universe")];
        launched := launched + [Post(FrTv, "PowerOn", "")];
        launched := launched + [Pause];
        launched := launched + [Post(FrTv, "HDMI1", "")];
        FrCallsSteps(FrRoute("HDMI1", Some("DC Universe"), "HDMI1"));
      case "DAILYBURN" =>
        receiverPayload := receiverPayload + InputField("HDMI1");
        launched := launched + [Put(FrReceiver, receiverPayload)];
        launched := launched + [Post(FrRoku, "input", "Daily Burn")];
        launched := launched + [Post(FrTv, "PowerOn", "")];
        launched := launched + [Pause];
        launched := launched + [Post(FrTv, "HDMI1", "")];
        FrCallsSteps(FrRoute("HDMI1", Some("Daily Burn"), "HDMI1"));
      case "NETFLIX" | "NET" | "FLIX" =>
        receiverPayload := receiverPayload + InputField("HDMI1");
        launched := launched + [Put(FrReceiver, receiverPayload)];
        launched := launched + [Post(FrRoku, "input", "Netflix")];
        launched := launched + [Post(FrTv, "PowerOn", "")];
        launched := launched + [Pause];
        launched := launched + [Post(FrTv, "HDMI1", "")];
        FrCallsSteps(FrRoute("HDMI1", Some("Netflix"), "HDMI1"));
      case "PLEX" | "PLAQUES" =>
        receiverPayload := receiverPayload + InputField("HDMI1");
        launched := launched + [Put(FrReceiver, receiverPayload)];
        launched := launched + [Post(FrRoku, "input", "Plex")];
        launched := launched + [Post(FrTv, "PowerOn", "")];
        launched := launched + [Pause];
        launched := launched + [Post(FrTv, "HDMI1", "")];
        FrCallsSteps(FrRoute("HDMI1", Some("Plex"), "HDMI1"));
      case "PRIME" | "AMAZON" =>
        receiverPayload := receiverPayload + InputField("HDMI1");
        launched := launched + [Put(FrReceiver, receiverPayload)];
        launched := launched + [Post(FrRoku, "input", "Prime Video")];
        launched := launched + [Post(FrTv, "PowerOn", "")];
        launched := launched + [Pause];
        launched := launched + [Post(FrTv, "HDMI1", "")];
        FrCallsSteps(FrRoute("HDMI1", Some("Prime Video"), "HDMI1"));
      case "HBO" =>
        receiverPayload := receiverPayload + InputField("HDMI1");
        launched := launched + [Put(FrReceiver, receiverPayload)];
        launched := launched + [Post(FrRoku, "input", "HBO GO")];
        launched := launched + [Post(FrTv, "PowerOn", "")];
        launched := launched + [Pause];
        launched := launched + [Post(FrTv, "HDMI1", "")];
        FrCallsSteps(FrRoute("HDMI1", Some("HBO GO"), "HDMI1"));
      case "CRUNCHYROLL" =>
        receiverPayload := receiverPayload + InputField("HDMI1");
        launched := launched + [Put(FrReceiver, receiverPayload)];
        launched := launched + [Post(FrRoku, "input", "Crunchyroll")];
        launched := launched + [Post(FrTv, "PowerOn", "")];
        launched := launched + [Pause];
        launched := launched + [Post(FrTv, "HDMI1", "")];
        FrCallsSteps(FrRoute("HDMI1", Some("Crunchyroll"), "HDMI1"));
      case "HGTV" =>
        receiverPayload := receiverPayload + InputField("HDMI1");
        launched := launched + [Put(FrReceiver, receiverPayload)];
        launched := launched + [Post(FrRoku, "input", "Watch HGTV")];
        launched := launched + [Post(FrTv, "PowerOn", "")];
        launched := launched + [Pause];
        launched := launched + [Post(FrTv, "HDMI1", "")];
        FrCallsSteps(FrRoute("HDMI1", Some("Watch HGTV"), "HDMI1"));
      case "STARS" =>
        receiverPayload := receiverPayload + InputField("HDMI1");
        launched := launched + [Put(FrReceiver, receiverPayload)];
        launched := launched + [Post(FrRoku, "input", "STARZ")];
        launched := launched + [Post(FrTv, "PowerOn", "")];
        launched := launched + [Pause];
        launched := launched + [Post(FrTv, "HDMI1", "")];
        FrCallsSteps(FrRoute("HDMI1", Some("STARZ"), "HDMI1"));
      case "PBS" =>
        receiverPayload := receiverPayload + InputField("HDMI1");
        launched := launched + [Put(FrReceiver, receiverPayload)];
        launched := launched + [Post(FrRoku, "input", "PBS Video")];
        launched := launched + [Post(FrTv, "PowerOn", "")];
        launched := launched + [Pause];
        launched := launched + [Post(FrTv, "HDMI1", "")];
        FrCallsSteps(FrRoute("HDMI1", Some("PBS Video"), "HDMI1"));
      case "SHOWTIME" =>
        receiverPayload := receiverPayload + InputField("HDMI1");
        launched := launched + [Put(FrReceiver, receiverPayload)];
        launched := launched + [Post(FrRoku, "input", "Showtime Anytime")];
        launched := launched + [Post(FrTv, "PowerOn", "")];
        launched := launched + [Pause];
        launched := launched + [Post(FrTv, "HDMI1", "")];
        FrCallsSteps(FrRoute("HDMI1", Some("Showtime Anytime"), "HDMI1"));
      case "YOUTUBE" =>
        receiverPayload := receiverPayload + InputField("HDMI1");
        launched := launched + [Put(FrReceiver, receiverPayload)];
        launched := launched + [Post(FrRoku, "input", "YouTube")];
        launched := launched + [Post(FrTv, "PowerOn", "")];
        launched := launched + [Pause];
        launched := launched + [Post(FrTv, "HDMI1", "")];
        FrCallsSteps(FrRoute("HDMI1", Some("YouTube"), "HDMI1"));
      case "NATGEOTV" | "NATGEO" =>
        receiverPayload := receiverPayload + InputField("HDMI1");
        launched := launched + [Put(FrReceiver, receiverPayload)];
        launched := launched + [Post(FrRoku, "input", "NatGeoTV")];
        launched := launched + [Post(FrTv, "PowerOn", "")];
        launched := launched + [Pause];
        launched := launched + [Post(FrTv, "HDMI1", "")];
        FrCallsSteps(FrRoute("HDMI1", Some("NatGeoTV"), "HDMI1"));
      case "SMITHSONIAN" =>
        receiverPayload := receiverPayload + InputField("HDMI1");
        launched := launched + [Put(FrReceiver, receiverPayload)];
        launched := launched + [Post(FrRoku, "input", "Smithsonian Channel")];
        launched := launched + [Post(FrTv, "PowerOn", "")];
        launched := launched + [Pause];
        launched := launched + [Post(FrTv, "HDMI1", "")];
        FrCallsSteps(FrRoute("HDMI1", Some("Smithsonian Channel"), "HDMI1"));
      case _ =>
        receiverPayload := receiverPayload + InputField("HDMI1");
        launched := launched + [Put(FrReceiver, receiverPayload)];
        launched := launched + [Post(FrRoku, "input", inputType)];
        launched := launched + [Post(FrTv, "PowerOn", "")];
        launched := launched + [Pause];
        launched := launched + [Post(FrTv, "HDMI1", "")];
        FrCallsSteps(FrDefaultRoute(inputType));
    }
  }

  /** The calls of a master-bedroom route, in the order the switch appends them. */
  lemma MbCallsSteps(r: MbRoute)
    ensures r.rokuApp.Some? ==>
      MbCalls(r) == [] + [Post(MbRoku, "input", r.rokuApp.value)] + [Post(MbTv, "PowerOn", "")] + [Pause] + [Post(MbTv, r.tvInput, "")]
    ensures r.rokuApp.None? ==>
      MbCalls(r) == [] + [Post(MbTv, "PowerOn", "")] + [Pause] + [Post(MbTv, r.tvInput, "")]
  {
  }

  /** The master-bedroom input switch as written: the calls are launched in order. */
  method MbSetInput(inputType: string) returns (launched: seq<Call>)
    ensures launched == MbResolve(inputType)
  {
    launched := [];
    match inputType {
      case "TV" | "T" | "V" =>
        launched := launched + [Post(MbTv, "PowerOn", "")];
        launched := launched + [Pause];
        launched := launched + [Post(MbTv, "InputTV", "")];
        MbCallsSteps(MbRoute(None, "InputTV"));
      case "PS2" | "TWO" | "2" | "PSTWO" | "PS" =>
        launched := launched + [Post(MbTv, "PowerOn", "")];
        launched := launched + [Pause];
        launched := launched + [Post(MbTv, "InputAV1", "")];
        MbCallsSteps(MbRoute(None, "InputAV1"));
      case "WII" | "WI" | "WILL" | "WE" | "WEEK" | "WIFI" | "WEE" | "WE'LL" =>
        launched := launched + [Post(MbTv, "PowerOn", "")];
        launched := launched + [Pause];
        launched := launched + [Post(MbTv, "InputComponent1", "")];
        MbCallsSteps(MbRoute(None, "InputComponent1"));
      case "SWITCH" =>
        launched := launched + [Post(MbTv, "PowerOn", "")];
        launched := launched + [Pause];
        launched := launched + [Post(MbTv, "HDMI2", "")];
        MbCallsSteps(MbRoute(None, "HDMI2"));
      case "DAILYBURN" =>
        launched := launched + [Post(MbRoku, "input", "Daily Burn")];
        launched := launched + [Post(MbTv, "PowerOn", "")];
        launched := launched + [Pause];
        launched := launched + [Post(MbTv, "HDMI1", "")];
        MbCallsSteps(MbRoute(Some("Daily Burn"), "HDMI1"));
      case "NETFLIX" | "NET" | "FLIX" =>
        launched := launched + [Post(MbRoku, "input", "Netflix")];
        launched := launched + [Post(MbTv, "PowerOn", "")];
        launched := launched + [Pause];
        launched := launched + [Post(MbTv, "HDMI1", "")];
        MbCallsSteps(MbRoute(Some("Netflix"), "HDMI1"));
      case "PLEX" | "PLAQUES" =>
        launched := launched + [Post(MbRoku, "input", "Plex")];
        launched := launched + [Post(MbTv, "PowerOn", "")];
        launched := launched + [Pause];
        launched := launched + [Post(MbTv, "HDMI1", "")];
        MbCallsSteps(MbRoute(Some("Plex"), "HDMI1"));
      case "PRIME" | "AMAZON" =>
        launched := launched + [Post(MbRoku, "input", "Prime Video")];
        launched := launched + [Post(MbTv, "PowerOn", "")];
        launched := launched + [Pause];
        launched := launched + [Post(MbTv, "HDMI1", "")];
        MbCallsSteps(MbRoute(Some("Prime Video"), "HDMI1"));
      case "HBO" =>
        launched := launched + [Post(MbRoku, "input", "HBO GO")];
        launched := launched + [Post(MbTv, "PowerOn", "")];
        launched := launched + [Pause];
        launched := launched + [Post(MbTv, "HDMI1", "")];
        MbCallsSteps(MbRoute(Some("HBO GO"), "HDMI1"));
      case "CRUNCHYROLL" =>
        launched := launched + [Post(MbRoku, "input", "Crunchyroll")];
        launched := launched + [Post(MbTv, "PowerOn", "")];
        launched := launched + [Pause];
        launched := launched + [Post(MbTv, "HDMI1", "")];
        MbCallsSteps(MbRoute(Some("Crunchyroll"), "HDMI1"));
      case "HGTV" =>
        launched := launched + [Post(MbRoku, "input", "Watch HGTV")];
        launched := launched + [Post(MbTv, "PowerOn", "")];
        launched := launched + [Pause];
        launched := launched + [Post(MbTv, "HDMI1", "")];
        MbCallsSteps(MbRoute(Some("Watch HGTV"), "HDMI1"));
      case "STARS" =>
        launched := launched + [Post(MbRoku, "input", "STARZ")];
        launched := launched + [Post(MbTv, "PowerOn", "")];
        launched := launched + [Pause];
        launched := launched + [Post(MbTv, "HDMI1", "")];
        MbCallsSteps(MbRoute(Some("STARZ"), "HDMI1"));
      case "PBS" =>
        launched := launched + [Post(MbRoku, "input", "PBS Video")];
        launched := launched + [Post(MbTv, "PowerOn", "")];
        launched := launched + [Pause];
        launched := launched + [Post(MbTv, "HDMI1", "")];
        MbCallsSteps(MbRoute(Some("PBS Video"), "HDMI1"));
      case "SHOWTIME" =>
        launched := launched + [Post(MbRoku, "input", "Showtime Anytime")];
        launched := launched + [Post(MbTv, "PowerOn", "")];
        launched := launched + [Pause];
        launched := launched + [Post(MbTv, "HDMI1", "")];
        MbCallsSteps(MbRoute(Some("Showtime Anytime"), "HDMI1"));
      case "YOUTUBE" =>
        launched := launched + [Post(MbRoku, "input", "YouTube")];
        launched := launched + [Post(MbTv, "PowerOn", "")];
        launched := launched + [Pause];
        launched := launched + [Post(MbTv, "HDMI1", "")];
        MbCallsSteps(MbRoute(Some("YouTube"), "HDMI1"));
      case "NATGEOTV" | "NATGEO" =>
        launched := launched + [Post(MbRoku, "input", "NatGeoTV")];
        launched := launched + [Post(MbTv, "PowerOn", "")];
        launched := launched + [Pause];
        launched := launched + [Post(MbTv, "HDMI1", "")];
        MbCallsSteps(MbRoute(Some("NatGeoTV"), "HDMI1"));
      case "SMITHSONIAN" =>
        launched := launched + [Post(MbRoku, "input", "Smithsonian Channel")];
        launched := launched + [Post(MbTv, "PowerOn", "")];
        launched := launched + [Pause];
        launched := launched + [Post(MbTv, "HDMI1", "")];
        MbCallsSteps(MbRoute(Some("Smithsonian Channel"), "HDMI1"));
      case _ =>
        launched := launched + [Post(MbRoku, "input", inputType)];
        launched := launched + [Post(MbTv, "PowerOn", "")];
        launched := launched + [Pause];
        launched := launched + [Post(MbTv, "HDMI1", "")];
        MbCallsSteps(MbDefaultRoute(inputType));
    }
  }
}
