/**
 * The client object: the module-level access token, the `authenticated`
 * listeners the deferred methods register, the requests in flight, the refresh
 * timers and what the client makes observable. Each API method is reached
 * through `Invoke`; the exchange that answers a request is an input to
 * `Respond`, and a timer firing is an input to `FireTimer`.
 */
module Client {
  import opened Js
  import opened Classifier
  import opened Auth
  import opened Params
  import opened Measure
  import opened Endpoints
  import opened Requests

  /** A method call: which method, with which options and callback. */
  datatype Call = Call(endpoint: Endpoint, options: Value, callback: Value)

  /**
   * The named arguments `authenticate` reads: none for falsy args; otherwise a
   * map whose every entry is what `args.<name>` reads, an object's own fields or
   * nothing at all for a value that has none.
   */
  function ArgsOf(heap: Heap, args: Value): (r: Option<Args>)
    requires Allocated(heap, args)
    ensures r.None? <==> !Truthy(args)
    ensures r.Some? ==> forall k :: Arg(r.value, k) == Get(heap, args, k)
  {
    if !Truthy(args) then None
    else if args.Ref? then Some(heap[args.addr])
    else if args.Obj? then Some(args.fields)
    else Some(map[])
  }

  /** Whatever form `args` takes, a truthy `args.access_token` is adopted as the token. */
  lemma PreIssuedTokenAdopted(heap: Heap, args: Value)
    requires Allocated(heap, args) && Truthy(Get(heap, args, "access_token"))
    ensures PlanAuthenticate(ArgsOf(heap, args)) == UseToken(Get(heap, args, "access_token"))
  {
  }

  /** The refresh a token grant arms, as a list of zero or one timers. */
  function Armed(g: TokenGrant): seq<ScheduledRefresh> {
    if g.refresh.Some? then [g.refresh.value] else []
  }

  /** A value a caller may pass to a client whose heap has `size` objects. */
  predicate Below(size: nat, v: Value) {
    !v.Obj? && (v.Ref? ==> v.addr < size)
  }

  /**
   * The registered listeners hold caller values, and none of them calls
   * `renameHomeSchedule`, the one method that forwards.
   */
  predicate ListenersIn(size: nat, ls: seq<Call>) {
    forall i :: 0 <= i < |ls| ==>
      Below(size, ls[i].options) && Below(size, ls[i].callback) && ls[i].endpoint != RenameHomeSchedule
  }

  /** Every endpoint request in flight carries a truthy token. */
  predicate AllAuthorized(fs: seq<InFlight>) {
    forall i :: 0 <= i < |fs| && fs[i].handler.EndpointHandler? ==> Authorized(fs[i].request)
  }

  /**
   * How a token reply that grants nothing is reported: a classified failure is
   * emitted on its channel and the callback returns normally; a classification or
   * a parse that throws emits nothing and throws. A grant is not constrained here.
   */
  predicate RejectionReported(reply: TokenReply, before: seq<Event>, after: seq<Event>, outcome: Completion) {
    (reply.Rejected? && reply.classification.Classified? ==>
       after == before + [EventOf(reply.classification.message, reply.classification.channel)] && outcome == Normal)
    && (reply.Rejected? && reply.classification.ClassifyThrew? ==>
          after == before && outcome == Threw(reply.classification.kind))
    && (reply.Unreadable? ==> after == before && outcome == Threw(reply.kind))
  }

  class Netatmo {
    /** The module-level `access_token`. */
    var accessToken: Value
    /** The objects callers have created. */
    var heap: Heap
    /** Emitted events and callback invocations, oldest first. */
    var events: seq<Event>
    /** The `authenticated` listeners, in registration order; `on` keeps them for good. */
    var listeners: seq<Call>
    /** Requests sent and not yet answered. */
    var inflight: seq<InFlight>
    /** Armed refresh timers. */
    var timers: seq<ScheduledRefresh>
    /** Every method call made so far, replays included. */
    ghost var calls: seq<Call>

    ghost predicate Valid()
      reads this
    {
      ListenersIn(|heap|, listeners) && AllAuthorized(inflight)
    }

    /**
     * `new netatmo(args)`: `token` is the module-level access token as earlier
     * instances left it (undefined in a fresh process).
     */
    constructor(heap0: Heap, token: Value, args: Value)
      requires CallerValue(heap0, args)
      ensures Valid()
      ensures heap == heap0 && listeners == [] && timers == [] && calls == []
      ensures var plan := PlanAuthenticate(ArgsOf(heap0, args));
              (plan.Reject? ==> events == [ErrorEvent(plan.message)] && inflight == [] && accessToken == token)
              && (plan.UseToken? ==> events == [] && inflight == [] && accessToken == plan.token)
              && (plan.RequestToken? ==>
                    events == [] && accessToken == token
                    && inflight == [InFlight(PostRequest(TokenPath, plan.form), TokenHandler(Undefined))])
    {
      accessToken := token;
      heap := heap0;
      events := [];
      listeners := [];
      inflight := [];
      timers := [];
      calls := [];
      new;
      Authenticate(args, Undefined);
    }

    /** A caller creates an object; it gets the next address. */
    method NewObject(fields: map<string, Value>) returns (v: Value)
      requires Valid()
      modifies this
      ensures Valid()
      ensures v == Ref(|old(heap)|) && heap == old(heap) + [fields]
      ensures CallerValue(heap, v)
      ensures accessToken == old(accessToken) && events == old(events) && listeners == old(listeners)
      ensures inflight == old(inflight) && timers == old(timers) && calls == old(calls)
    {
      v := Ref(|heap|);
      heap := heap + [fields];
    }

    /**
     * `authenticate(args, callback)`: reports the first missing argument, adopts
     * a pre-issued token without emitting `authenticated`, or posts the token form.
     */
    method Authenticate(args: Value, callback: Value)
      requires Valid() && Allocated(heap, args)
      modifies this
      ensures Valid()
      ensures heap == old(heap) && listeners == old(listeners) && timers == old(timers) && calls == old(calls)
      ensures var plan := PlanAuthenticate(ArgsOf(old(heap), args));
              (plan.Reject? ==>
                 events == old(events) + [ErrorEvent(plan.message)]
                 && inflight == old(inflight) && accessToken == old(accessToken))
              && (plan.UseToken? ==>
                    events == old(events) && inflight == old(inflight) && accessToken == plan.token)
              && (plan.RequestToken? ==>
                    events == old(events) && accessToken == old(accessToken)
                    && inflight == old(inflight) + [InFlight(PostRequest(TokenPath, plan.form), TokenHandler(callback))])
    {
      var plan := PlanAuthenticate(ArgsOf(heap, args));
      match plan
      case Reject(message) =>
        events := events + [ErrorEvent(message)];
      case UseToken(token) =>
        accessToken := token;
      case RequestToken(form) =>
        inflight := inflight + [InFlight(PostRequest(TokenPath, form), TokenHandler(callback))];
    }

    /** `authenticate_refresh(refreshToken)`: posts the refresh form. */
    method AuthenticateRefresh(refreshToken: Value)
      requires Valid()
      modifies this
      ensures Valid()
      ensures inflight == old(inflight) + [InFlight(PostRequest(TokenPath, RefreshForm(refreshToken)), RefreshHandler)]
      ensures accessToken == old(accessToken) && heap == old(heap) && events == old(events)
      ensures listeners == old(listeners) && timers == old(timers) && calls == old(calls)
    {
      inflight := inflight + [InFlight(PostRequest(TokenPath, RefreshForm(refreshToken)), RefreshHandler)];
    }

    /** Timer `i` fires: it is disarmed and its refresh token is posted. */
    method FireTimer(i: nat)
      requires Valid() && i < |timers|
      modifies this
      ensures Valid()
      ensures timers == old(timers[..i] + timers[i + 1..])
      ensures inflight == old(inflight) + [InFlight(PostRequest(TokenPath, RefreshForm(old(timers[i]).refreshToken)), RefreshHandler)]
      ensures accessToken == old(accessToken) && heap == old(heap) && events == old(events)
      ensures listeners == old(listeners) && calls == old(calls)
    {
      var t := timers[i];
      timers := timers[..i] + timers[i + 1..];
      AuthenticateRefresh(t.refreshToken);
    }

    /**
     * `validateRequiredParams(f, o, required)`: the loop stops at the first
     * required name that is not a key of the options.
     */
    method ValidateRequiredParams(f: string, o: Value, required: seq<string>) returns (ok: bool, outcome: Completion)
      requires Valid() && Allocated(heap, o)
      modifies this
      ensures Valid()
      ensures ok == Validate(f, old(heap), o, required).ok && outcome == Validate(f, old(heap), o, required).outcome
      ensures events == old(events) + Validate(f, old(heap), o, required).events
      ensures accessToken == old(accessToken) && heap == old(heap) && listeners == old(listeners)
      ensures inflight == old(inflight) && timers == old(timers) && calls == old(calls)
    {
      outcome := Normal;
      if |required| > 0 && !Truthy(o) {
        events := events + [ErrorEvent(OptionsNotSet)];
      }
      if |required| > 0 && Nullish(o) {
        return false, Threw(TypeError);
      }
      if |required| == 0 {
        return true, Normal;
      }
      var keys := Keys(heap, o);
      var i := 0;
      while i < |required|
        invariant 0 <= i <= |required|
        invariant forall j :: 0 <= j < i ==> required[j] in keys
        invariant events == old(events) + (if Truthy(o) then [] else [ErrorEvent(OptionsNotSet)])
      {
        if required[i] !in keys {
          FirstMissingIsFirst(keys, required, i);
          events := events + [ErrorEvent(MissingMessage(f, required[i]))];
          return false, Normal;
        }
        i := i + 1;
      }
      return true, Normal;
    }

    /** `makeAuthenticatedGetRequest(path, qs, handler)` */
    method SendGet(path: string, qs: Value, handler: Handler) returns (outcome: Completion)
      requires Valid() && Allocated(heap, qs) && Truthy(accessToken)
      modifies this
      ensures Valid()
      ensures QueryOf(old(heap), qs).Some? ==>
                outcome == Normal
                && inflight == old(inflight) + [InFlight(GetRequest(path, QueryOf(old(heap), qs).value, accessToken), handler)]
      ensures QueryOf(old(heap), qs).None? ==> outcome == OutsideModel && inflight == old(inflight)
      ensures accessToken == old(accessToken) && heap == old(heap) && events == old(events)
      ensures listeners == old(listeners) && timers == old(timers) && calls == old(calls)
    {
      match QueryOf(heap, qs)
      case None =>
        outcome := OutsideModel;
      case Some(q) =>
        Enqueue(GetRequest(path, q, accessToken), handler);
        outcome := Normal;
    }

    /** Hands an authorized request to the transport; `handler` is called with its exchange. */
    method Enqueue(request: Request, handler: Handler)
      requires Valid() && Authorized(request)
      modifies this
      ensures Valid()
      ensures inflight == old(inflight) + [InFlight(request, handler)]
      ensures accessToken == old(accessToken) && heap == old(heap) && events == old(events)
      ensures listeners == old(listeners) && timers == old(timers) && calls == old(calls)
    {
      inflight := inflight + [InFlight(request, handler)];
    }

    /** `makeAuthenticatedPostRequest(path, form, handler)`: the token is written into the caller's form. */
    method SendPost(path: string, form: Value, handler: Handler) returns (outcome: Completion)
      requires Valid() && Allocated(heap, form) && Truthy(accessToken)
      modifies this
      ensures Valid()
      ensures Nullish(form) ==> outcome == Threw(TypeError) && heap == old(heap) && inflight == old(inflight)
      ensures form.Ref? ==>
                outcome == Normal
                && heap == old(heap)[form.addr := old(heap)[form.addr]["access_token" := accessToken]]
                && inflight == old(inflight) + [InFlight(PostRequest(path, heap[form.addr]), handler)]
      ensures !Nullish(form) && !form.Ref? ==> outcome == OutsideModel && heap == old(heap) && inflight == old(inflight)
      ensures accessToken == old(accessToken) && events == old(events)
      ensures listeners == old(listeners) && timers == old(timers) && calls == old(calls)
    {
      if Nullish(form) {
        outcome := Threw(TypeError);
      } else if form.Ref? {
        heap := heap[form.addr := heap[form.addr]["access_token" := accessToken]];
        Enqueue(PostRequest(path, heap[form.addr]), handler);
        outcome := Normal;
      } else {
        outcome := OutsideModel;
      }
    }

    /**
     * The in-place rewrite of a measure request's options; the query to send when it
     * completes. The source assigns the keys one at a time; nothing runs between those
     * assignments, so the steps are taken on the value and the object is written once.
     */
    method NormalizeMeasureOptions(kind: MeasureKind, a: nat) returns (n: Norm)
      requires Valid() && a < |heap|
      modifies this
      ensures Valid()
      ensures n == NormalizeMeasure(kind, old(heap)[a]) && heap == old(heap)[a := n.options]
      ensures accessToken == old(accessToken) && events == old(events) && listeners == old(listeners)
      ensures inflight == old(inflight) && timers == old(timers) && calls == old(calls)
    {
      var t := TypeStep(kind, heap[a]);
      var b := DateStep(t, "date_begin", false);
      var e := DateStep(b, "date_end", true);
      n := FlagStep(FlagStep(LimitStep(e), "optimize"), "real_time");
      heap := heap[a := n.options];
    }

    /**
     * The state after `route` handled options `o` that passed its checks, from
     * heap `h0` and in-flight requests `f0`: the options object rewritten as
     * the route leaves it, and the route's request sent when it gets that far.
     */
    ghost predicate Sent(route: Route, h0: Heap, f0: seq<InFlight>, o: Value, handler: Handler, outcome: Completion)
      requires Allocated(h0, o)
      reads this
    {
      var sent := RequestFor(route, h0, o, accessToken);
      (outcome == Normal <==> sent.Some?)
      && (sent.Some? ==> inflight == f0 + [InFlight(sent.value, handler)])
      && (sent.None? ==> inflight == f0)
      && (o.Ref? ==> heap == h0[o.addr := OptionsAfter(route, h0[o.addr], accessToken)])
      && (!o.Ref? ==> heap == h0)
    }

    /** A route that sends the options as given. */
    method SendPlain(route: Route, o: Value, handler: Handler) returns (outcome: Completion)
      requires Valid() && Truthy(accessToken) && Allocated(heap, o) && route.prep.Plain?
      modifies this
      ensures Valid()
      ensures accessToken == old(accessToken) && listeners == old(listeners) && timers == old(timers) && calls == old(calls)
      ensures events == old(events)
      ensures Sent(route, old(heap), old(inflight), o, handler, outcome)
    {
      if route.verb == GET {
        outcome := SendGet(route.path, o, handler);
      } else {
        outcome := SendPost(route.path, o, handler);
      }
    }

    /** `getPublicData`: `required_data` is normalised in place, then the options are sent. */
    method SendPublicData(route: Route, o: Value, handler: Handler) returns (outcome: Completion)
      requires Valid() && Truthy(accessToken) && Allocated(heap, o) && route.prep.PublicDataPrep?
      modifies this
      ensures Valid()
      ensures accessToken == old(accessToken) && listeners == old(listeners) && timers == old(timers) && calls == old(calls)
      ensures events == old(events)
      ensures Sent(route, old(heap), old(inflight), o, handler, outcome)
    {
      if o.Ref? && NormalizePublicData(heap[o.addr]).Some? {
        heap := heap[o.addr := NormalizePublicData(heap[o.addr]).value];
        outcome := SendGet(route.path, o, handler);
      } else {
        outcome := Threw(TypeError);
      }
    }

    /** The options at `a` are rewritten in place, then the fresh query is sent if the rewrite completed. */
    method SendNormalized(kind: MeasureKind, path: string, a: nat, handler: Handler) returns (n: Norm)
      requires Valid() && Truthy(accessToken) && a < |heap|
      modifies this
      ensures Valid()
      ensures accessToken == old(accessToken) && listeners == old(listeners) && timers == old(timers) && calls == old(calls)
      ensures events == old(events)
      ensures n == NormalizeMeasure(kind, old(heap)[a]) && heap == old(heap)[a := n.options]
      ensures n.Ready? ==> inflight == old(inflight) + [InFlight(GetRequest(path, n.query, accessToken), handler)]
      ensures n.Stopped? ==> inflight == old(inflight)
    {
      n := NormalizeMeasureOptions(kind, a);
      if n.Ready? {
        Enqueue(GetRequest(path, n.query, accessToken), handler);
      }
    }

    /** The measure methods: the options are rewritten in place and a fresh query is sent. */
    method SendMeasure(route: Route, o: Value, handler: Handler) returns (outcome: Completion)
      requires Valid() && Truthy(accessToken) && Allocated(heap, o) && route.prep.MeasurePrep?
      modifies this
      ensures Valid()
      ensures accessToken == old(accessToken) && listeners == old(listeners) && timers == old(timers) && calls == old(calls)
      ensures events == old(events)
      ensures Sent(route, old(heap), old(inflight), o, handler, outcome)
    {
      if o.Ref? {
        MeasureRouteSends(route, heap, o.addr, accessToken);
        var n := SendNormalized(route.prep.kind, route.path, o.addr, handler);
        outcome := if n.Ready? then Normal else n.outcome;
      } else {
        outcome := Threw(TypeError);
      }
    }

    /** The body of method `name` with route `route`, once a token is present. */
    method Run(name: string, route: Route, options: Value, callback: Value) returns (outcome: Completion)
      requires Valid() && Truthy(accessToken)
      requires CallerValue(heap, options) && CallerValue(heap, callback)
      modifies this
      ensures Valid()
      ensures accessToken == old(accessToken) && listeners == old(listeners) && timers == old(timers) && calls == old(calls)
      ensures |heap| == |old(heap)| && old(events) <= events && old(inflight) <= inflight
      ensures var (o, c) := Arguments(route, options, callback);
              route.optionsCheck && !Truthy(o) ==>
                events == old(events) + [ErrorEvent(name + " 'options' not set.")]
                && outcome == Normal && heap == old(heap) && inflight == old(inflight)
      ensures var (o, c) := Arguments(route, options, callback);
              var v := Validate(name, old(heap), o, route.required);
              (!route.optionsCheck || Truthy(o)) && !v.ok ==>
                events == old(events) + v.events && outcome == v.outcome
                && heap == old(heap) && inflight == old(inflight)
      ensures var (o, c) := Arguments(route, options, callback);
              Passes(route, old(heap), o) ==>
                events == old(events)
                && Sent(route, old(heap), old(inflight), o,
                        EndpointHandler(route.context, route.emitLabel, route.parseJson, route.errorToCallback, c), outcome)
    {
      var args := Arguments(route, options, callback);
      var o, c := args.0, args.1;
      if route.optionsCheck && !Truthy(o) {
        events := events + [ErrorEvent(name + " 'options' not set.")];
        return Normal;
      }
      var ok;
      ok, outcome := ValidateRequiredParams(name, o, route.required);
      if !ok {
        return;
      }
      var handler := EndpointHandler(route.context, route.emitLabel, route.parseJson, route.errorToCallback, c);
      match route.prep
      case Plain =>
        outcome := SendPlain(route, o, handler);
      case PublicDataPrep =>
        outcome := SendPublicData(route, o, handler);
      case MeasurePrep(_) =>
        outcome := SendMeasure(route, o, handler);
    }

    /**
     * An API method. Without a token it registers an `authenticated` listener
     * that will call its replay target with the same arguments and does nothing
     * else; with one it runs its body, or forwards to the method it calls.
     */
    method Invoke(e: Endpoint, options: Value, callback: Value) returns (outcome: Completion)
      requires Valid() && CallerValue(heap, options) && CallerValue(heap, callback)
      modifies this
      decreases if e == RenameHomeSchedule then 1 else 0
      ensures Valid()
      ensures accessToken == old(accessToken) && timers == old(timers) && |heap| == |old(heap)|
      ensures old(events) <= events && old(inflight) <= inflight
      ensures e != RenameHomeSchedule ==> calls == old(calls) + [Call(e, options, callback)]
      ensures !Truthy(accessToken) ==>
                listeners == old(listeners) + [Call(ReplayTarget(e), options, callback)]
                && outcome == Normal && events == old(events) && inflight == old(inflight) && heap == old(heap)
      ensures Truthy(accessToken) ==> listeners == old(listeners)
      ensures Truthy(accessToken) && e == RenameHomeSchedule ==>
                calls == old(calls) + [Call(e, options, callback), Call(HomeStatus, Str("renameHomeSchedule"), Str("/api/renamehomeschedule"))]
    {
      calls := calls + [Call(e, options, callback)];
      if !Truthy(accessToken) {
        listeners := listeners + [Call(ReplayTarget(e), options, callback)];
        return Normal;
      }
      OnlyRenameForwards(e);
      match DispatchOf(e)
      case Forward(target, o, c) =>
        outcome := Invoke(target, o, c);
      case Direct(route) =>
        outcome := Run(Name(e), route, options, callback);
    }

    /**
     * `emit('authenticated')`: the listeners registered so far run in order; a
     * throw in one ends the emit. Listeners registered meanwhile wait for the next one.
     */
    method Replay() returns (outcome: Completion, replayed: nat)
      requires Valid()
      modifies this
      ensures Valid()
      ensures accessToken == old(accessToken) && timers == old(timers) && |heap| == |old(heap)|
      ensures old(events) <= events
      ensures old(listeners) <= listeners
      ensures Truthy(accessToken) ==> listeners == old(listeners)
      ensures replayed <= |old(listeners)| && calls == old(calls) + old(listeners)[..replayed]
      ensures outcome == Normal ==> replayed == |old(listeners)|
      ensures outcome != Normal ==> replayed > 0
      ensures old(inflight) <= inflight
    {
      var snapshot := listeners;
      replayed := 0;
      outcome := Normal;
      while replayed < |snapshot|
        invariant Valid()
        invariant replayed <= |snapshot| && snapshot <= listeners
        invariant accessToken == old(accessToken) && timers == old(timers) && |heap| == |old(heap)|
        invariant old(events) <= events && old(inflight) <= inflight
        invariant Truthy(accessToken) ==> listeners == snapshot
        invariant calls == old(calls) + snapshot[..replayed]
        invariant outcome == Normal
      {
        var l := snapshot[replayed];
        assert l == listeners[replayed];
        var r := Invoke(l.endpoint, l.options, l.callback);
        replayed := replayed + 1;
        assert snapshot[..replayed] == snapshot[..replayed - 1] + [l];
        if r != Normal {
          return r, replayed;
        }
      }
    }

    /** The reply callback of `authenticate` (`initial`) or of `authenticate_refresh`. */
    method OnTokenReply(x: Exchange, callback: Value, initial: bool) returns (outcome: Completion, replayed: nat)
      requires Valid()
      modifies this
      ensures Valid()
      ensures old(events) <= events && old(listeners) <= listeners && old(inflight) <= inflight
      ensures |heap| == |old(heap)|
      ensures var reply := ReadTokenReply(x, if initial then "Authenticate error" else "Authenticate refresh error", initial);
              RejectionReported(reply, old(events), events, outcome)
              && (!reply.Granted? ==>
                    accessToken == old(accessToken) && timers == old(timers) && inflight == old(inflight)
                    && listeners == old(listeners) && calls == old(calls) && replayed == 0)
              && (reply.Granted? ==>
                    accessToken == reply.grant.accessToken && timers == old(timers) + Armed(reply.grant))
              && (!initial ==> inflight == old(inflight) && listeners == old(listeners) && calls == old(calls))
              && (reply.Granted? && !initial ==>
                    events == old(events) && outcome == Normal && listeners == old(listeners)
                    && calls == old(calls) && replayed == 0)
              && (reply.Granted? && initial ==>
                    old(events) + [Authenticated] <= events
                    && replayed <= |old(listeners)| && calls == old(calls) + old(listeners)[..replayed]
                    && (outcome == Normal ==> replayed == |old(listeners)|)
                    && (outcome == Normal ==> !Truthy(callback) || callback.Fn?)
                    && (outcome == Normal && callback.Fn? ==> events[|events| - 1] == Called(callback.id, NoArgs)))
    {
      replayed := 0;
      outcome := Normal;
      var reply := ReadTokenReply(x, if initial then "Authenticate error" else "Authenticate refresh error", initial);
      match reply
      case Rejected(cl) =>
        match cl {
          case Classified(m, ch) =>
            events := events + [EventOf(m, ch)];
          case ClassifyThrew(k) =>
            outcome := Threw(k);
        }
      case Unreadable(k) =>
        outcome := Threw(k);
      case Granted(g) =>
        accessToken := g.accessToken;
        timers := timers + Armed(g);
        if initial {
          events := events + [Authenticated];
          outcome, replayed := Replay();
          if outcome == Normal {
            var effect := CallbackEffect(callback, NoArgs);
            events := events + effect.events;
            outcome := effect.outcome;
          }
        }
    }

    /** The exchange for in-flight request `i` completes and its reply callback runs. */
    method Respond(i: nat, x: Exchange) returns (outcome: Completion)
      requires Valid() && i < |inflight|
      modifies this
      ensures Valid()
      ensures old(events) <= events && old(listeners) <= listeners && |heap| == |old(heap)|
      ensures old(inflight[..i] + inflight[i + 1..]) <= inflight
      ensures old(inflight[i]).handler.EndpointHandler? ==>
                var effect := EndpointReply(x, old(inflight[i]).handler);
                events == old(events) + effect.events && outcome == effect.outcome
                && inflight == old(inflight[..i] + inflight[i + 1..])
                && accessToken == old(accessToken) && heap == old(heap) && listeners == old(listeners)
                && timers == old(timers) && calls == old(calls)
      ensures old(inflight[i]).handler.RefreshHandler? ==>
                var reply := ReadTokenReply(x, "Authenticate refresh error", false);
                inflight == old(inflight[..i] + inflight[i + 1..]) && listeners == old(listeners) && calls == old(calls)
                && (reply.Granted? ==>
                      accessToken == reply.grant.accessToken && timers == old(timers) + Armed(reply.grant)
                      && events == old(events) && outcome == Normal)
                && (!reply.Granted? ==> accessToken == old(accessToken) && timers == old(timers))
                && RejectionReported(reply, old(events), events, outcome)
      ensures old(inflight[i]).handler.TokenHandler? ==>
                var reply := ReadTokenReply(x, "Authenticate error", true);
                (reply.Granted? ==>
                   accessToken == reply.grant.accessToken && timers == old(timers) + Armed(reply.grant)
                   && old(events) + [Authenticated] <= events)
                && (!reply.Granted? ==>
                      accessToken == old(accessToken) && timers == old(timers) && listeners == old(listeners)
                      && inflight == old(inflight[..i] + inflight[i + 1..]))
                && RejectionReported(reply, old(events), events, outcome)
    {
      var h := inflight[i].handler;
      inflight := inflight[..i] + inflight[i + 1..];
      match h
      case EndpointHandler(_, _, _, _, _) =>
        var effect := EndpointReply(x, h);
        events := events + effect.events;
        outcome := effect.outcome;
      case TokenHandler(callback) =>
        var replayed;
        outcome, replayed := OnTokenReply(x, callback, true);
      case RefreshHandler =>
        var replayed;
        outcome, replayed := OnTokenReply(x, Undefined, false);
    }
  }
}
