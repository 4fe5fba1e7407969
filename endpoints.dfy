/**
 * The table of API methods: for each one, what its body does once a token is
 * present (its route), and which method the listener it registers before that
 * re-invokes.
 */
module Endpoints {
  import opened Js
  import opened Params
  import opened Measure

  datatype Endpoint =
    | GetPublicData | GetStationsData | GetMeasure | GetHomeData
    | GetEventsUntil | GetLastEventOf | GetNextEvents | GetCameraPicture
    | SetPersonsAway | SetPersonsHome | AddWebHook | DropWebHook
    | HomesData | HomeStatus | CreateNewHomeSchedule | DeleteHomeSchedule
    | RenameHomeSchedule | SyncHomeSchedule | SwitchHomeSchedule
    | GetRoomMeasure | SetRoomThermPoint | SetThermMode | GetHomeCoachsData

  /** The method's name, as used in its error messages. */
  function Name(e: Endpoint): string {
    match e
    case GetPublicData => "getPublicData"
    case GetStationsData => "getStationsData"
    case GetMeasure => "getMeasure"
    case GetHomeData => "getHomeData"
    case GetEventsUntil => "getEventsUntil"
    case GetLastEventOf => "getLastEventOf"
    case GetNextEvents => "getNextEvents"
    case GetCameraPicture => "getCameraPicture"
    case SetPersonsAway => "setPersonsAway"
    case SetPersonsHome => "setPersonsHome"
    case AddWebHook => "addWebHook"
    case DropWebHook => "dropWebHook"
    case HomesData => "homesData"
    case HomeStatus => "homeStatus"
    case CreateNewHomeSchedule => "createNewHomeSchedule"
    case DeleteHomeSchedule => "deleteHomeSchedule"
    case RenameHomeSchedule => "renameHomeSchedule"
    case SyncHomeSchedule => "syncHomeSchedule"
    case SwitchHomeSchedule => "switchHomeSchedule"
    case GetRoomMeasure => "getRoomMeasure"
    case SetRoomThermPoint => "setRoomThermPoint"
    case SetThermMode => "setThermMode"
    case GetHomeCoachsData => "getHomeCoachsData"
  }

  /**
   * The method the `authenticated` listener calls. Four POST methods re-invoke
   * `getCameraPicture` and `renameHomeSchedule` re-invokes `homeStatus`.
   */
  function ReplayTarget(e: Endpoint): (r: Endpoint)
    ensures r == e || r == GetCameraPicture || r == HomeStatus
    ensures r != RenameHomeSchedule
  {
    match e
    case SetPersonsAway => GetCameraPicture
    case SetPersonsHome => GetCameraPicture
    case AddWebHook => GetCameraPicture
    case DropWebHook => GetCameraPicture
    case RenameHomeSchedule => HomeStatus
    case _ => e
  }

  datatype Verb = GET | POST

  /** What happens to the options between validation and sending. */
  datatype Prep =
    | Plain                       // sent as given
    | PublicDataPrep              // `required_data` joined and normalised in place
    | MeasurePrep(kind: MeasureKind)  // rewritten in place, a fresh query is sent

  /**
   * The body of a method once a token is present.
   * `shuffle`: the options-as-callback shuffle runs first.
   * `optionsCheck`: falsy options are reported as `<name> 'options' not set.`.
   * `context`: the prefix of a failed reply's message.
   * `emitLabel`: the event a successful reply is emitted on.
   * `parseJson`: the reply is parsed and its `body` field passed on; otherwise the raw text is.
   * `errorToCallback`: a failed reply's error is also handed to the callback.
   */
  datatype Route = Route(
    verb: Verb, path: string, shuffle: bool, optionsCheck: bool, required: seq<string>,
    prep: Prep, context: string, emitLabel: string, parseJson: bool, errorToCallback: bool)

  datatype Dispatch =
    | Direct(route: Route)
    /** The method calls another method with the arguments given. */
    | Forward(target: Endpoint, options: Value, callback: Value)

  /** The method's path below the service's base URL. */
  function Path(e: Endpoint): string {
    match e
    case GetPublicData => "/api/getpublicdata"
    case GetStationsData => "/api/getstationsdata"
    case GetMeasure => "/api/getmeasure"
    case GetHomeData => "/api/gethomedata"
    case GetEventsUntil => "/api/geteventsuntil"
    case GetLastEventOf => "/api/getlasteventof"
    case GetNextEvents => "/api/getnextevents"
    case GetCameraPicture => "/api/getcamerapicture"
    case SetPersonsAway => "/api/setpersonsaway"
    case SetPersonsHome => "/api/setpersonshome"
    case AddWebHook => "/api/addwebhook"
    case DropWebHook => "/api/dropwebhook"
    case HomesData => "/api/homesdata"
    case HomeStatus => "/api/homestatus"
    case CreateNewHomeSchedule => "/api/createnewhomeschedule"
    case DeleteHomeSchedule => "/api/deletehomeschedule"
    case RenameHomeSchedule => "/api/renamehomeschedule"
    case SyncHomeSchedule => "/api/synchomeschedule"
    case SwitchHomeSchedule => "/api/switchhomeschedule"
    case GetRoomMeasure => "/api/getroommeasure"
    case SetRoomThermPoint => "/api/setroomthermpoint"
    case SetThermMode => "/api/setthermmode"
    case GetHomeCoachsData => "/api/gethomecoachsdata"
  }

  /** The parameters the method validates, in the order it checks them. */
  function Required(e: Endpoint): seq<string> {
    match e
    case GetPublicData => ["lat_ne", "lon_ne", "lat_sw", "lon_sw"]
    case GetMeasure => ["device_id", "scale", "type"]
    case GetEventsUntil => ["home_id", "event_id"]
    case GetLastEventOf => ["home_id", "person_id"]
    case GetNextEvents => ["home_id", "event_id"]
    case GetCameraPicture => ["image_id", "key"]
    case SetPersonsAway => ["home_id"]
    case SetPersonsHome => ["home_id"]
    case AddWebHook => ["url"]
    case HomeStatus => ["home_id"]
    case CreateNewHomeSchedule => ["home_id", "timetable", "zone", "name", "hg_temp", "away_temp"]
    case DeleteHomeSchedule => ["home_id", "schedule_id"]
    case RenameHomeSchedule => ["home_id", "schedule_id", "name"]
    case SyncHomeSchedule => ["home_id", "zones", "timetable", "hg_temp", "away_temp"]
    case SwitchHomeSchedule => ["schedule_id", "home_id"]
    case GetRoomMeasure => ["home_id", "room_id", "scale", "type"]
    case SetRoomThermPoint => ["home_id", "room_id", "mode"]
    case SetThermMode => ["home_id", "mode"]
    case _ => []
  }

  /** The prefix of a failed reply's message: `<name> error`, except for `getStationsData`. */
  function Context(e: Endpoint): string {
    if e == GetStationsData then "getStationsDataError error" else Name(e) + " error"
  }

  /** The event a successful reply is emitted on. */
  function EmitLabel(e: Endpoint): string {
    match e
    case GetPublicData => "get-publicdata"
    case GetStationsData => "get-stationsdata"
    case GetMeasure => "get-measure"
    case GetHomeData => "get-homedata"
    case GetEventsUntil => "get-eventsuntil"
    case GetLastEventOf => "get-lasteventof"
    case GetNextEvents => "get-nextevents"
    case GetCameraPicture => "get-camerapicture"
    case SetPersonsAway => "set-personsaway"
    case SetPersonsHome => "set-personshome"
    case AddWebHook => "set-addwebhook"
    case DropWebHook => "set-dropwebhook"
    case HomesData => "get-homesdata"
    case HomeStatus => "get-homestatus"
    case CreateNewHomeSchedule => "set-createnewhomeschedule"
    case DeleteHomeSchedule => "set-createnewhomeschedule"
    case RenameHomeSchedule => "set-renamehomeschedule"
    case SyncHomeSchedule => "set-synchomeschedule"
    case SwitchHomeSchedule => "set-switchhomeschedule"
    case GetRoomMeasure => "get-roommeasure"
    case SetRoomThermPoint => "set-setroomthermpoint"
    case SetThermMode => "set-setthermmode"
    case GetHomeCoachsData => "get-homecoachesdata"
  }

  /** A method written on `simpleGetRequest` / `simplePostRequest`. */
  function Simple(verb: Verb, e: Endpoint): Route {
    Route(verb, Path(e), true, false, Required(e), Plain, Context(e), EmitLabel(e), true, false)
  }

  /** A method with its own `if (!options)` check, validation and request. */
  function Checked(verb: Verb, e: Endpoint): Route {
    Route(verb, Path(e), false, true, Required(e), Plain, Context(e), EmitLabel(e), true, false)
  }

  /**
   * The body of each API method once a token is held: its own route, or, for
   * `renameHomeSchedule`, a call of `homeStatus` with its name and path as arguments.
   */
  function DispatchOf(e: Endpoint): (r: Dispatch)
    ensures r.Forward? ==> r.target == HomeStatus
  {
    match e
    case GetPublicData =>
      Direct(Route(GET, Path(e), false, true, Required(e), PublicDataPrep, Context(e), EmitLabel(e), true, true))
    case GetStationsData =>
      Direct(Route(GET, Path(e), true, false, Required(e), Plain, Context(e), EmitLabel(e), true, false))
    case GetMeasure =>
      Direct(Route(GET, Path(e), false, true, Required(e), MeasurePrep(StationMeasure), Context(e), EmitLabel(e), true, true))
    case GetHomeData => Direct(Simple(GET, e))
    case GetEventsUntil => Direct(Checked(GET, e))
    case GetLastEventOf => Direct(Checked(GET, e))
    case GetNextEvents => Direct(Checked(GET, e))
    case GetCameraPicture =>
      Direct(Route(GET, Path(e), false, true, Required(e), Plain, Context(e), EmitLabel(e), false, false))
    case SetPersonsAway => Direct(Checked(POST, e))
    case SetPersonsHome => Direct(Checked(POST, e))
    case AddWebHook => Direct(Checked(POST, e))
    case DropWebHook => Direct(Checked(POST, e))
    case HomesData => Direct(Simple(GET, e))
    case HomeStatus => Direct(Simple(GET, e))
    case CreateNewHomeSchedule => Direct(Simple(POST, e))
    case DeleteHomeSchedule => Direct(Simple(POST, e))
    case RenameHomeSchedule => Forward(HomeStatus, Str(Name(e)), Str(Path(e)))
    case SyncHomeSchedule => Direct(Simple(POST, e))
    case SwitchHomeSchedule => Direct(Simple(POST, e))
    case GetRoomMeasure =>
      Direct(Route(GET, Path(e), false, false, Required(e), MeasurePrep(RoomMeasure), Context(e), EmitLabel(e), true, true))
    case SetRoomThermPoint => Direct(Simple(POST, e))
    case SetThermMode => Direct(Simple(POST, e))
    case GetHomeCoachsData => Direct(Simple(GET, e))
  }

  // ---------------------------------------------------------------------------
  // Properties

  /**
   * Every method that builds its own request takes its path, its required
   * keys, its error context and its event label from the tables above.
   */
  lemma DispatchUsesTables(e: Endpoint)
    ensures DispatchOf(e).Direct? ==>
              var r := DispatchOf(e).route;
              r.path == Path(e) && r.required == Required(e) && r.context == Context(e) && r.emitLabel == EmitLabel(e)
  {
    match e {
      case GetPublicData => {}
      case GetStationsData => {}
      case GetMeasure => {}
      case GetHomeData => {}
      case GetEventsUntil => {}
      case GetLastEventOf => {}
      case GetNextEvents => {}
      case GetCameraPicture => {}
      case SetPersonsAway => {}
      case SetPersonsHome => {}
      case AddWebHook => {}
      case DropWebHook => {}
      case HomesData => {}
      case HomeStatus => {}
      case CreateNewHomeSchedule => {}
      case DeleteHomeSchedule => {}
      case RenameHomeSchedule => {}
      case SyncHomeSchedule => {}
      case SwitchHomeSchedule => {}
      case GetRoomMeasure => {}
      case SetRoomThermPoint => {}
      case SetThermMode => {}
      case GetHomeCoachsData => {}
    }
  }

  /**
   * Exactly five methods register a listener that re-invokes a different method:
   * the four people and webhook POSTs, which replay `getCameraPicture`, and
   * `renameHomeSchedule`, which replays `homeStatus`.
   */
  lemma MiswiredReplays(e: Endpoint)
    ensures ReplayTarget(e) != e <==>
              e in {SetPersonsAway, SetPersonsHome, AddWebHook, DropWebHook, RenameHomeSchedule}
    ensures e in {SetPersonsAway, SetPersonsHome, AddWebHook, DropWebHook} ==> ReplayTarget(e) == GetCameraPicture
    ensures e == RenameHomeSchedule ==> ReplayTarget(e) == HomeStatus
  {
  }

  /** A replayed call always lands on a method with a route of its own, never on a forwarding one. */
  lemma ReplayLandsOnRoute(e: Endpoint)
    ensures DispatchOf(ReplayTarget(e)).Direct?
  {
    match e {
      case GetPublicData => {}
      case GetStationsData => {}
      case GetMeasure => {}
      case GetHomeData => {}
      case GetEventsUntil => {}
      case GetLastEventOf => {}
      case GetNextEvents => {}
      case GetCameraPicture => {}
      case SetPersonsAway => {}
      case SetPersonsHome => {}
      case AddWebHook => {}
      case DropWebHook => {}
      case HomesData => {}
      case HomeStatus => {}
      case CreateNewHomeSchedule => {}
      case DeleteHomeSchedule => {}
      case RenameHomeSchedule => {}
      case SyncHomeSchedule => {}
      case SwitchHomeSchedule => {}
      case GetRoomMeasure => {}
      case SetRoomThermPoint => {}
      case SetThermMode => {}
      case GetHomeCoachsData => {}
    }
  }

  /** `renameHomeSchedule` is the only method that forwards to another; it forwards to `homeStatus`. */
  lemma OnlyRenameForwards(e: Endpoint)
    ensures DispatchOf(e).Forward? <==> e == RenameHomeSchedule
    ensures DispatchOf(e).Forward? ==> DispatchOf(e).target == HomeStatus
  {
    match e {
      case GetPublicData => {}
      case GetStationsData => {}
      case GetMeasure => {}
      case GetHomeData => {}
      case GetEventsUntil => {}
      case GetLastEventOf => {}
      case GetNextEvents => {}
      case GetCameraPicture => {}
      case SetPersonsAway => {}
      case SetPersonsHome => {}
      case AddWebHook => {}
      case DropWebHook => {}
      case HomesData => {}
      case HomeStatus => {}
      case CreateNewHomeSchedule => {}
      case DeleteHomeSchedule => {}
      case RenameHomeSchedule => {}
      case SyncHomeSchedule => {}
      case SwitchHomeSchedule => {}
      case GetRoomMeasure => {}
      case SetRoomThermPoint => {}
      case SetThermMode => {}
      case GetHomeCoachsData => {}
    }
  }

  /** A mis-wired replay turns a POST into a GET that requires other parameters. */
  lemma MiswiredReplayChangesVerb(e: Endpoint)
    requires e in {SetPersonsAway, SetPersonsHome, AddWebHook, DropWebHook}
    ensures DispatchOf(e).route.verb == POST && DispatchOf(ReplayTarget(e)).route.verb == GET
    ensures DispatchOf(ReplayTarget(e)).route.required == ["image_id", "key"]
  {
  }

  /**
   * `renameHomeSchedule`, once a token is present, hands a string to
   * `homeStatus` as its options: the string's keys are its indices, so the
   * validation of `home_id` fails and nothing is sent.
   */
  lemma RenameNeverSends(heap: Heap)
    ensures DispatchOf(RenameHomeSchedule).target == HomeStatus
    ensures var f := DispatchOf(RenameHomeSchedule);
            var r := DispatchOf(HomeStatus).route;
            FirstMissing(Keys(heap, Shuffle(f.options, f.callback).0), r.required) == Some(0)
  {
    var name := "home_id";
    assert !IsDigit(name[0]);
    OnlyObjectsPass(heap, Str("renameHomeSchedule"), ["home_id"]);
  }

  /** `getHomeData` shuffles twice; the second shuffle never changes anything. */
  lemma ShuffleTwice(options: Value, callback: Value)
    ensures var (o, c) := Shuffle(options, callback);
            Shuffle(o, c) == (o, c)
  {
  }

  /**
   * Options reach a POST request only through a non-empty validation or the
   * `if (!options)` check, so a POST never writes the token into a missing form.
   */
  lemma PostsGuardOptions(e: Endpoint)
    requires DispatchOf(e).Direct? && DispatchOf(e).route.verb == POST
    ensures DispatchOf(e).route.optionsCheck || |DispatchOf(e).route.required| > 0
  {
    match e {
      case GetPublicData => {}
      case GetStationsData => {}
      case GetMeasure => {}
      case GetHomeData => {}
      case GetEventsUntil => {}
      case GetLastEventOf => {}
      case GetNextEvents => {}
      case GetCameraPicture => {}
      case SetPersonsAway => {}
      case SetPersonsHome => {}
      case AddWebHook => {}
      case DropWebHook => {}
      case HomesData => {}
      case HomeStatus => {}
      case CreateNewHomeSchedule => {}
      case DeleteHomeSchedule => {}
      case RenameHomeSchedule => {}
      case SyncHomeSchedule => {}
      case SwitchHomeSchedule => {}
      case GetRoomMeasure => {}
      case SetRoomThermPoint => {}
      case SetThermMode => {}
      case GetHomeCoachsData => {}
    }
  }

  /** Only `getMeasure` and `getRoomMeasure` normalise measure options. */
  lemma OnlyMeasuresNormalize(e: Endpoint)
    ensures DispatchOf(e).Direct? && DispatchOf(e).route.prep.MeasurePrep? <==> (e == GetMeasure || e == GetRoomMeasure)
  {
    match e {
      case GetPublicData => {}
      case GetStationsData => {}
      case GetMeasure => {}
      case GetHomeData => {}
      case GetEventsUntil => {}
      case GetLastEventOf => {}
      case GetNextEvents => {}
      case GetCameraPicture => {}
      case SetPersonsAway => {}
      case SetPersonsHome => {}
      case AddWebHook => {}
      case DropWebHook => {}
      case HomesData => {}
      case HomeStatus => {}
      case CreateNewHomeSchedule => {}
      case DeleteHomeSchedule => {}
      case RenameHomeSchedule => {}
      case SyncHomeSchedule => {}
      case SwitchHomeSchedule => {}
      case GetRoomMeasure => {}
      case SetRoomThermPoint => {}
      case SetThermMode => {}
      case GetHomeCoachsData => {}
    }
  }

  /** Each measure method validates exactly the base keys its fresh query is built from. */
  lemma MeasureValidatesBaseKeys()
    ensures DispatchOf(GetMeasure).route.prep == MeasurePrep(StationMeasure)
            && DispatchOf(GetMeasure).route.required == BaseKeys(StationMeasure)
    ensures DispatchOf(GetRoomMeasure).route.prep == MeasurePrep(RoomMeasure)
            && DispatchOf(GetRoomMeasure).route.required == BaseKeys(RoomMeasure)
  {
  }
}
