/**
 * What a method sends once its checks pass, what it leaves in the caller's
 * options object, and what the reply callback of an endpoint does with the
 * exchange: the pure parts of `makeAuthenticatedGetRequest`,
 * `makeAuthenticatedPostRequest`, `simpleGetRequest` / `simplePostRequest` and
 * the per-endpoint reply callbacks.
 */
module Requests {
  import opened Js
  import opened Classifier
  import opened Params
  import opened Measure
  import opened Endpoints

  /** A request handed to the transport; paths are relative to the service's base URL. */
  datatype Request =
    | GetRequest(path: string, query: map<string, Value>, bearer: Value)
    | PostRequest(path: string, form: map<string, Value>)

  /** The `Authorization` header of a GET: `util.format('Bearer %s', access_token)`. */
  function Authorization(bearer: Value): string {
    "Bearer " + ToJsString(bearer)
  }

  /** The arguments a caller's callback receives. */
  datatype CallbackArgs =
    | NoArgs                      // `callback()` after authentication
    | ErrorArg(message: string)   // `callback(error)`
    | ResultArgs(payload: Value)  // `callback(err, payload)` with a falsy `err`

  /** What the client makes observable, in order. */
  datatype Event =
    | ErrorEvent(message: string)
    | WarningEvent(message: string)
    | Authenticated
    | DataEvent(name: string, payload: Value)
    | Called(callback: nat, args: CallbackArgs)

  /** What runs when a request's exchange completes. */
  datatype Handler =
    | TokenHandler(callback: Value)
    | RefreshHandler
    | EndpointHandler(context: string, emitLabel: string, parseJson: bool, errorToCallback: bool, callback: Value)

  datatype InFlight = InFlight(request: Request, handler: Handler)

  /** The options and callback a route goes on with, after its shuffle if it has one. */
  function Arguments(route: Route, options: Value, callback: Value): (r: (Value, Value))
    ensures !route.shuffle ==> r == (options, callback)
    ensures r.0 == options || r.0 == Null
  {
    if route.shuffle then Shuffle(options, callback) else (options, callback)
  }

  /** What `validateRequiredParams(f, o, required)` emits, how it ends, and whether it returns true. */
  datatype Validation = Validation(events: seq<Event>, outcome: Completion, ok: bool)

  /**
   * The validation: falsy options are reported as "Options not set." when names
   * are required, undefined and null then make `Object.keys` throw, and otherwise
   * the first name that is not a key of the options is reported.
   */
  function Validate(f: string, heap: Heap, o: Value, required: seq<string>): (r: Validation)
    requires Allocated(heap, o)
    ensures r.ok <==> |required| == 0 || (!Nullish(o) && FirstMissing(Keys(heap, o), required).None?)
    ensures r.ok ==> r.events == [] && r.outcome == Normal
    ensures r.outcome != Normal <==> |required| > 0 && Nullish(o)
    ensures r.outcome != Normal ==> r.outcome == Threw(TypeError) && r.events == [ErrorEvent(OptionsNotSet)]
    ensures !r.ok && r.outcome == Normal ==>
              FirstMissing(Keys(heap, o), required).Some?
              && r.events == (if Truthy(o) then [] else [ErrorEvent(OptionsNotSet)])
                             + [ErrorEvent(MissingMessage(f, required[FirstMissing(Keys(heap, o), required).value]))]
  {
    if |required| == 0 then Validation([], Normal, true)
    else
      var notSet := if Truthy(o) then [] else [ErrorEvent(OptionsNotSet)];
      if Nullish(o) then Validation(notSet, Threw(TypeError), false)
      else
        match FirstMissing(Keys(heap, o), required)
        case None => Validation(notSet, Normal, true)
        case Some(i) => Validation(notSet + [ErrorEvent(MissingMessage(f, required[i]))], Normal, false)
  }

  /** The options get past the `if (!options)` check and the validation without a throw. */
  predicate Passes(route: Route, heap: Heap, o: Value)
    requires Allocated(heap, o)
  {
    (!route.optionsCheck || Truthy(o))
    && (|route.required| == 0 || (!Nullish(o) && FirstMissing(Keys(heap, o), route.required).None?))
  }

  /** A request to an endpoint carries a truthy access token: in its header or in its form. */
  predicate Authorized(r: Request) {
    match r
    case GetRequest(_, _, bearer) => Truthy(bearer)
    case PostRequest(_, form) => "access_token" in form && Truthy(form["access_token"])
  }

  /**
   * `qs` as `makeAuthenticatedGetRequest` sends it: a caller's object, or `{}` for
   * a falsy value; None for any other value, which this model does not serialise.
   */
  function QueryOf(heap: Heap, qs: Value): Option<map<string, Value>>
    requires Allocated(heap, qs)
  {
    if qs.Ref? then Some(heap[qs.addr]) else if !Truthy(qs) then Some(map[]) else None
  }

  /** The caller's options object as a route leaves it. */
  function OptionsAfter(route: Route, options: map<string, Value>, token: Value): (r: map<string, Value>)
    ensures route.prep.Plain? && route.verb == GET ==> r == options
    ensures forall k :: k !in {"access_token", "required_data", "type", "date_begin", "date_end"}
                        ==> Lookup(r, k) == Lookup(options, k)
  {
    match route.prep
    case Plain => if route.verb == POST then options["access_token" := token] else options
    case PublicDataPrep =>
      (match NormalizePublicData(options) case Some(m) => m case None => options)
    case MeasurePrep(kind) =>
      OptionsKeptByMeasure(kind, options);
      NormalizeMeasure(kind, options).options
  }

  lemma OptionsKeptByMeasure(kind: MeasureKind, o: map<string, Value>)
    ensures forall k :: k !in {"type", "date_begin", "date_end"} ==>
              Lookup(NormalizeMeasure(kind, o).options, k) == Lookup(o, k)
  {
    forall k | k !in {"type", "date_begin", "date_end"}
      ensures Lookup(NormalizeMeasure(kind, o).options, k) == Lookup(o, k)
    {
      MeasureKeepsOtherOptions(kind, o, k);
    }
  }

  /** The request a route sends for options that passed its checks; None when it stops first. */
  function RequestFor(route: Route, heap: Heap, o: Value, token: Value): (r: Option<Request>)
    requires Allocated(heap, o)
    ensures r.Some? ==> r.value.path == route.path
    ensures r.Some? && r.value.GetRequest? ==> r.value.bearer == token
    ensures r.Some? && r.value.PostRequest? ==>
              o.Ref? && r.value.form.Keys == heap[o.addr].Keys + {"access_token"}
              && r.value.form["access_token"] == token
              && forall k :: k in heap[o.addr] && k != "access_token" ==> r.value.form[k] == heap[o.addr][k]
    ensures route.prep.Plain? && route.verb == GET && o.Ref? ==> r == Some(GetRequest(route.path, heap[o.addr], token))
    ensures route.prep.Plain? && route.verb == GET && !Truthy(o) ==> r == Some(GetRequest(route.path, map[], token))
    ensures route.prep.Plain? && route.verb == POST ==> (r.Some? <==> o.Ref?) && (r.Some? ==> r.value.PostRequest?)
    ensures route.prep.PublicDataPrep? && o.Ref? ==>
              (r.Some? <==> TypeListText(Lookup(heap[o.addr], "required_data")).Some?)
    ensures route.prep.PublicDataPrep? && r.Some? ==>
              o.Ref? && r.value.GetRequest?
              && r.value.query == heap[o.addr]["required_data" := Str(TypeListText(Lookup(heap[o.addr], "required_data")).value)]
    ensures route.prep.MeasurePrep? && r.Some? ==>
              o.Ref? && r.value.GetRequest? && r.value.query.Keys == QueryKeySet(route.prep.kind, heap[o.addr])
  {
    match route.prep
    case Plain =>
      if route.verb == GET then
        (match QueryOf(heap, o) case Some(q) => Some(GetRequest(route.path, q, token)) case None => None)
      else if o.Ref? then Some(PostRequest(route.path, heap[o.addr]["access_token" := token]))
      else None
    case PublicDataPrep =>
      if o.Ref? && NormalizePublicData(heap[o.addr]).Some? then
        Some(GetRequest(route.path, NormalizePublicData(heap[o.addr]).value, token))
      else None
    case MeasurePrep(kind) =>
      if o.Ref? && NormalizeMeasure(kind, heap[o.addr]).Ready? then
        QueryKeys(kind, heap[o.addr]);
        Some(GetRequest(route.path, NormalizeMeasure(kind, heap[o.addr]).query, token))
      else None
  }

  /** What a measure route sends and leaves behind, read off the normalisation. */
  lemma MeasureRouteSends(route: Route, heap: Heap, a: nat, token: Value)
    requires route.prep.MeasurePrep? && a < |heap|
    ensures var n := NormalizeMeasure(route.prep.kind, heap[a]);
            RequestFor(route, heap, Ref(a), token) == (if n.Ready? then Some(GetRequest(route.path, n.query, token)) else None)
            && OptionsAfter(route, heap[a], token) == n.options
            && (n.Stopped? ==> n.outcome != Normal)
  {
    var kind := route.prep.kind;
    var t := TypeStep(kind, heap[a]);
    var b := DateStep(t, "date_begin", false);
    var e := DateStep(b, "date_end", true);
    assert b.Stopped? ==> b.outcome != Normal;
    assert e.Stopped? ==> e.outcome != Normal;
  }

  // ---------------------------------------------------------------------------
  // Reply callbacks

  /** Events a reply callback emits, and how it ends. */
  datatype ReplyEffect = ReplyEffect(events: seq<Event>, outcome: Completion)

  function EventOf(message: string, channel: Channel): Event {
    if channel == ErrorChannel then ErrorEvent(message) else WarningEvent(message)
  }

  /** `if (callback) callback(args)`: a truthy callback that is not a function throws. */
  function CallbackEffect(callback: Value, args: CallbackArgs): (r: ReplyEffect)
    ensures |r.events| <= 1
    ensures r.events != [] <==> callback.Fn?
    ensures r.events != [] ==> r.events == [Called(callback.id, args)]
    ensures r.outcome != Normal <==> Truthy(callback) && !callback.Fn?
  {
    if !Truthy(callback) then ReplyEffect([], Normal)
    else if callback.Fn? then ReplyEffect([Called(callback.id, args)], Normal)
    else ReplyEffect([], Threw(TypeError))
  }

  /** The raw body handed on by `getCameraPicture`. */
  function BodyText(body: RawBody): Value {
    match body
    case NoBody => Undefined
    case Text(raw, _) => Str(raw)
  }

  /** The payload of a successful reply: the parsed document's `body` field, or the raw text. */
  function Payload(x: Exchange, parseJson: bool): (r: Option<Value>)
    requires x.Reply?
    ensures !parseJson ==> r.Some?
    ensures parseJson ==> (r.None? <==> ParseJson(x.body).None? || Nullish(ParseJson(x.body).value))
    ensures parseJson && r.Some? ==> r.value == Field(ParseJson(x.body).value, "body")
  {
    if !parseJson then Some(BodyText(x.body))
    else match ParseJson(x.body)
      case None => None
      case Some(doc) => if Nullish(doc) then None else Some(Field(doc, "body"))
  }

  /**
   * The reply callback of an endpoint. A failed exchange is classified without
   * `critical`, so it is reported on `warning`; the three measure and public-data
   * methods also hand the error to the callback.
   */
  function EndpointReply(x: Exchange, h: Handler): (r: ReplyEffect)
    requires h.EndpointHandler?
    ensures |r.events| <= 2
    ensures Failed(x) ==> forall i :: 0 <= i < |r.events| ==> !r.events[i].DataEvent? && !r.events[i].ErrorEvent?
    ensures Failed(x) && ClassifyExchange(x, h.context, false).Classified? ==>
              r.events != [] && r.events[0] == WarningEvent(ClassifyExchange(x, h.context, false).message)
    ensures forall i :: 0 <= i < |r.events| && r.events[i].Called? ==>
              h.callback == Fn(r.events[i].callback) && (r.events[i].args.ErrorArg? ==> h.errorToCallback)
    ensures !Failed(x) && Payload(x, h.parseJson).Some? ==>
              r.events != [] && r.events[0] == DataEvent(h.emitLabel, Payload(x, h.parseJson).value)
    ensures !Failed(x) && Payload(x, h.parseJson).None? ==> r.events == [] && r.outcome.Threw?
    ensures !Failed(x) && Payload(x, h.parseJson).Some? && h.callback.Fn? ==>
              r == ReplyEffect([DataEvent(h.emitLabel, Payload(x, h.parseJson).value),
                                Called(h.callback.id, ResultArgs(Payload(x, h.parseJson).value))], Normal)
    ensures Failed(x) && ClassifyExchange(x, h.context, false).Classified? && h.errorToCallback && h.callback.Fn? ==>
              var m := ClassifyExchange(x, h.context, false).message;
              r == ReplyEffect([WarningEvent(m), Called(h.callback.id, ErrorArg(m))], Normal)
    ensures Failed(x) && ClassifyExchange(x, h.context, false).Classified? && !h.errorToCallback ==>
              r == ReplyEffect([WarningEvent(ClassifyExchange(x, h.context, false).message)], Normal)
    ensures !Failed(x) && Payload(x, h.parseJson).Some? && !Truthy(h.callback) ==>
              r == ReplyEffect([DataEvent(h.emitLabel, Payload(x, h.parseJson).value)], Normal)
    ensures !Failed(x) && Payload(x, h.parseJson).Some? && Truthy(h.callback) && !h.callback.Fn? ==>
              r.outcome == Threw(TypeError)
    ensures Failed(x) && ClassifyExchange(x, h.context, false).Classified? && h.errorToCallback && !Truthy(h.callback) ==>
              r == ReplyEffect([WarningEvent(ClassifyExchange(x, h.context, false).message)], Normal)
    ensures Failed(x) && ClassifyExchange(x, h.context, false).Classified? && h.errorToCallback
            && Truthy(h.callback) && !h.callback.Fn? ==>
              r.outcome == Threw(TypeError)
  {
    if Failed(x) then
      match ClassifyExchange(x, h.context, false)
      case ClassifyThrew(k) => ReplyEffect([], Threw(k))
      case Classified(m, ch) =>
        var cb := if h.errorToCallback then CallbackEffect(h.callback, ErrorArg(m)) else ReplyEffect([], Normal);
        ReplyEffect([EventOf(m, ch)] + cb.events, cb.outcome)
    else
      match Payload(x, h.parseJson)
      case None =>
        ReplyEffect([], Threw(if h.parseJson && ParseJson(x.body).None? then SyntaxError else TypeError))
      case Some(p) =>
        var cb := CallbackEffect(h.callback, ResultArgs(p));
        ReplyEffect([DataEvent(h.emitLabel, p)] + cb.events, cb.outcome)
  }

  // ---------------------------------------------------------------------------
  // Properties

  /** A GET sends the bearer token in its header, rendered as text. */
  lemma BearerHeader(token: string)
    ensures Authorization(Str(token)) == "Bearer " + token
  {
  }

  /**
   * A POST writes the current token into the caller's form and sends every other
   * field unchanged; a replay of the same call overwrites it with the token then current.
   */
  lemma PostTokenOverwritten(route: Route, heap: Heap, a: nat, t1: Value, t2: Value)
    requires a < |heap| && route.prep.Plain? && route.verb == POST
    ensures var h2 := heap[a := OptionsAfter(route, heap[a], t1)];
            RequestFor(route, h2, Ref(a), t2) == RequestFor(route, heap, Ref(a), t2)
  {
    var m := heap[a]["access_token" := t1];
    assert m["access_token" := t2] == heap[a]["access_token" := t2];
  }

  /**
   * A people or webhook POST deferred before authentication is replayed as
   * `getCameraPicture`: unless its options happen to hold an `image_id`, the
   * replay reports that parameter missing and sends nothing.
   */
  lemma MiswiredReplayReportsImageId(heap: Heap, a: nat, e: Endpoint)
    requires a < |heap| && "image_id" !in heap[a]
    requires e in {SetPersonsAway, SetPersonsHome, AddWebHook, DropWebHook}
    ensures var route := DispatchOf(ReplayTarget(e)).route;
            Validate(Name(ReplayTarget(e)), heap, Ref(a), route.required)
              == Validation([ErrorEvent("getCameraPicture 'image_id' not set.")], Normal, false)
  {
    var route := DispatchOf(GetCameraPicture).route;
    assert route.required[0] == "image_id";
    FirstMissingIsFirst(heap[a].Keys, route.required, 0);
    assert MissingMessage("getCameraPicture", "image_id") == "getCameraPicture 'image_id' not set.";
    MiswiredReplays(e);
  }

  /** `renameHomeSchedule` with a token reports `homeStatus 'home_id' not set.` and sends nothing. */
  lemma RenameReportsHomeId(heap: Heap)
    ensures var f := DispatchOf(RenameHomeSchedule);
            var route := DispatchOf(f.target).route;
            var (o, c) := Arguments(route, f.options, f.callback);
            !Passes(route, heap, o)
            && Validate(Name(f.target), heap, o, route.required)
                 == Validation([ErrorEvent("homeStatus 'home_id' not set.")], Normal, false)
  {
    RenameNeverSends(heap);
    assert Truthy(Str("renameHomeSchedule"));
    assert MissingMessage("homeStatus", "home_id") == "homeStatus 'home_id' not set.";
  }
}
