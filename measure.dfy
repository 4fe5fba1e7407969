/**
 * Option normalisation of `getMeasure`, `getRoomMeasure` and `getPublicData`:
 * the type list is joined, stripped of white space and lower-cased, dates given
 * in seconds are scaled to milliseconds and then read back as Unix seconds,
 * `limit` is clamped, the two flags are coerced to booleans, and a fresh query
 * is built. The functions here specify both the caller's options object after
 * the in-place rewrite and the query that is sent.
 */
module Measure {
  import opened Js

  const MaxLimit: int := 1024

  /** Dates at or below 1E10 are taken to be in seconds. */
  const SecondsCutoff: int := 10_000_000_000

  datatype MeasureKind = StationMeasure | RoomMeasure

  /** The required names, which are also the keys every query starts from. */
  function BaseKeys(kind: MeasureKind): seq<string> {
    match kind
    case StationMeasure => ["device_id", "scale", "type"]
    case RoomMeasure => ["home_id", "room_id", "scale", "type"]
  }

  function BaseKeySet(kind: MeasureKind): set<string> {
    set k | k in BaseKeys(kind)
  }

  /** `{key}` when `c` holds, and no key otherwise. */
  function KeyIf(c: bool, key: string): set<string> {
    if c then {key} else {}
  }

  function Lookup(o: map<string, Value>, key: string): Value {
    if key in o then o[key] else Undefined
  }

  function NormalizeText(s: string): string {
    LowerAscii(StripSpaces(s))
  }

  /**
   * `if (Array.isArray(t)) t = t.join(','); t = t.replace(/\s/g, '').toLowerCase();`
   * None when `replace` is not there to call (the value is neither array nor string).
   */
  function TypeListText(v: Value): (r: Option<string>)
    ensures r.Some? <==> v.Arr? || v.Str?
    ensures v.Str? ==> r == Some(NormalizeText(v.s))
  {
    match v
    case Arr(_) => Some(NormalizeText(ToJsString(v)))
    case Str(s) => Some(NormalizeText(s))
    case _ => None
  }

  /** The in-place rewrite `if (d <= 1E10) d *= 1E3`. */
  function ToMillis(d: int): int {
    if d <= SecondsCutoff then d * 1000 else d
  }

  /** `moment(ms).utc().unix()`: whole seconds, rounded down. */
  function UnixSeconds(ms: int): int {
    ms / 1000
  }

  /** The Unix-seconds value a numeric date option is sent as. */
  function DateSeconds(d: int): (r: int)
    ensures d <= SecondsCutoff ==> r == d
    ensures d > SecondsCutoff ==> r == d / 1000
  {
    UnixSeconds(ToMillis(d))
  }

  function ClampLimit(n: int): (r: int)
    ensures r <= MaxLimit
    ensures n <= MaxLimit ==> r == n
    ensures n > MaxLimit ==> r == MaxLimit
  {
    if n > MaxLimit then MaxLimit else n
  }

  /**
   * Partial progress of the normalisation: the caller's options as rewritten so
   * far and the query being built, or where it stopped.
   */
  datatype Norm =
    | Ready(options: map<string, Value>, query: map<string, Value>)
    | Stopped(options: map<string, Value>, outcome: Completion)

  /** The query's starting keys, read from the options after the type rewrite. */
  function BaseQuery(kind: MeasureKind, o: map<string, Value>): (q: map<string, Value>)
    ensures forall k :: k in q <==> k in BaseKeys(kind)
    ensures forall k :: k in q ==> q[k] == Lookup(o, k)
  {
    match kind
    case StationMeasure =>
      map["device_id" := Lookup(o, "device_id"), "scale" := Lookup(o, "scale"), "type" := Lookup(o, "type")]
    case RoomMeasure =>
      map["home_id" := Lookup(o, "home_id"), "room_id" := Lookup(o, "room_id"),
          "scale" := Lookup(o, "scale"), "type" := Lookup(o, "type")]
  }

  /** The type rewrite, then the query's base keys and `module_id`. */
  function TypeStep(kind: MeasureKind, o: map<string, Value>): (r: Norm)
    ensures r.Stopped? <==> TypeListText(Lookup(o, "type")).None?
    ensures r.Stopped? ==> r == Stopped(o, Threw(TypeError))
    ensures r.Ready? ==> r.options == o["type" := Str(TypeListText(Lookup(o, "type")).value)]
    ensures r.Ready? ==> r.query.Keys == BaseKeySet(kind)
                                       + KeyIf(kind == StationMeasure && Truthy(Lookup(o, "module_id")), "module_id")
    ensures r.Ready? ==> forall k :: k in r.query ==> r.query[k] == Lookup(r.options, k)
  {
    match TypeListText(Lookup(o, "type"))
    case None => Stopped(o, Threw(TypeError))
    case Some(t) =>
      var o1 := o["type" := Str(t)];
      var q := BaseQuery(kind, o1);
      assert Lookup(o1, "module_id") == Lookup(o, "module_id");
      Ready(o1, if kind == StationMeasure && Truthy(Lookup(o1, "module_id")) then q["module_id" := Lookup(o1, "module_id")] else q)
  }

  /** One date option; `'last'` passes through literally where it is allowed. */
  function DateStep(n: Norm, key: string, allowLast: bool): (r: Norm)
    ensures n.Stopped? ==> r == n
    ensures r.Stopped? ==> r.options == n.options
    ensures r.Ready? <==> n.Ready? && ((allowLast && Lookup(n.options, key) == Str("last"))
                                       || !Truthy(Lookup(n.options, key)) || Lookup(n.options, key).Num?)
    ensures r.Ready? ==> forall k :: k != key ==> Lookup(r.options, k) == Lookup(n.options, k)
    ensures r.Ready? ==> (allowLast && Lookup(r.options, key) == Str("last"))
                         || !Truthy(Lookup(r.options, key)) || Lookup(r.options, key).Num?
    ensures r.Ready? ==> r.query.Keys == n.query.Keys + KeyIf(Truthy(Lookup(n.options, key)), key)
    ensures r.Ready? ==> forall k :: k in n.query && k != key ==> r.query[k] == n.query[k]
    ensures n.Ready? && allowLast && Lookup(n.options, key) == Str("last") ==> r == Ready(n.options, n.query[key := Str("last")])
    ensures r.Ready? && Lookup(n.options, key).Num? && Truthy(Lookup(n.options, key)) ==>
              r.query[key] == Num(DateSeconds(Lookup(n.options, key).n))
              && r.options == n.options[key := Num(ToMillis(Lookup(n.options, key).n))]
  {
    if n.Stopped? then n
    else
      var d := Lookup(n.options, key);
      if allowLast && d == Str("last") then Ready(n.options, n.query[key := Str("last")])
      else if !Truthy(d) then n
      else if !d.Num? then Stopped(n.options, OutsideModel)
      else
        var o := if d.n <= SecondsCutoff then n.options[key := Num(d.n * 1000)] else n.options;
        Ready(o, n.query[key := Num(DateSeconds(d.n))])
  }

  function LimitStep(n: Norm): (r: Norm)
    ensures n.Stopped? ==> r == n
    ensures r.options == n.options
    ensures r.Ready? <==> n.Ready? && (!Truthy(Lookup(n.options, "limit")) || Lookup(n.options, "limit").Num?)
    ensures r.Ready? ==> r.query.Keys == n.query.Keys + KeyIf(Truthy(Lookup(n.options, "limit")), "limit")
    ensures r.Ready? ==> forall k :: k in n.query && k != "limit" ==> r.query[k] == n.query[k]
    ensures r.Ready? && Truthy(Lookup(n.options, "limit")) ==>
              Lookup(n.options, "limit").Num? && r.query["limit"] == Num(ClampLimit(Lookup(n.options, "limit").n))
  {
    if n.Stopped? then n
    else
      var l := Lookup(n.options, "limit");
      if !Truthy(l) then n
      else if !l.Num? then Stopped(n.options, OutsideModel)
      else Ready(n.options, n.query["limit" := Num(ClampLimit(l.n))])
  }

  /** `if (v !== undefined) q[key] = !!v` */
  function FlagStep(n: Norm, key: string): (r: Norm)
    ensures n.Stopped? ==> r == n
    ensures r.options == n.options && r.Ready? == n.Ready?
    ensures r.Ready? ==> r.query.Keys == n.query.Keys + KeyIf(Lookup(n.options, key) != Undefined, key)
    ensures r.Ready? ==> forall k :: k in n.query && k != key ==> r.query[k] == n.query[k]
    ensures r.Ready? && Lookup(n.options, key) != Undefined ==> r.query[key] == Bool(Truthy(Lookup(n.options, key)))
  {
    if n.Stopped? then n
    else
      var v := Lookup(n.options, key);
      if v == Undefined then n else Ready(n.options, n.query[key := Bool(Truthy(v))])
  }

  /** The dates, then the limit and the flags. */
  function LaterSteps(n: Norm): Norm {
    FlagStep(FlagStep(LimitStep(DateStep(DateStep(n, "date_begin", false), "date_end", true)), "optimize"), "real_time")
  }

  /** The whole normalisation of a measure request's options `o`. */
  function NormalizeMeasure(kind: MeasureKind, o: map<string, Value>): (r: Norm)
    ensures r.Stopped? ==> r.outcome != Normal
    ensures r.Ready? ==> forall k :: k in BaseKeys(kind) ==> k in r.query
  {
    var t := TypeStep(kind, o);
    var b := DateStep(t, "date_begin", false);
    var e := DateStep(b, "date_end", true);
    assert b.Stopped? ==> b.outcome != Normal;
    assert e.Stopped? ==> e.outcome != Normal;
    LaterSteps(t)
  }

  /** `getPublicData`'s rewrite of `required_data`; None when it throws. */
  function NormalizePublicData(o: map<string, Value>): (r: Option<map<string, Value>>)
    ensures r.Some? ==> r.value.Keys == o.Keys + {"required_data"}
    ensures r.Some? ==> forall k :: k in o && k != "required_data" ==> r.value[k] == o[k]
    ensures r.Some? <==> TypeListText(Lookup(o, "required_data")).Some?
    ensures r.Some? ==> r.value["required_data"] == Str(TypeListText(Lookup(o, "required_data")).value)
  {
    match TypeListText(Lookup(o, "required_data"))
    case None => None
    case Some(t) => Some(o["required_data" := Str(t)])
  }

  // ---------------------------------------------------------------------------
  // Properties

  /**
   * A timestamp given in seconds and the same instant given in milliseconds are
   * sent as the same value, for every date after 1970-04-26 (so that the
   * millisecond form lies above the 1E10 cut-off).
   */
  lemma SecondsAndMillisAgree(s: int)
    requires SecondsCutoff / 1000 < s <= SecondsCutoff
    ensures DateSeconds(s) == s
    ensures DateSeconds(s * 1000) == s
  {
  }

  /** A millisecond date at or below the cut-off is read as seconds. */
  lemma SmallMillisReadAsSeconds(ms: int)
    requires 0 < ms <= SecondsCutoff
    ensures DateSeconds(ms) == ms
  {
  }

  /** The steps after the type rewrite leave every option but the two dates as they found it. */
  lemma LaterStepsKeepOptions(n: Norm, k: string)
    requires LaterSteps(n).Ready?
    requires k != "date_begin" && k != "date_end"
    ensures n.Ready?
    ensures Lookup(LaterSteps(n).options, k) == Lookup(n.options, k)
  {
    var b := DateStep(n, "date_begin", false);
    var e := DateStep(b, "date_end", true);
    assert LaterSteps(n).options == e.options;
  }

  /** The steps after the type rewrite add one query key per option the caller set. */
  lemma LaterStepsKeys(n: Norm)
    requires LaterSteps(n).Ready?
    ensures n.Ready?
    ensures LaterSteps(n).query.Keys ==
              n.query.Keys
              + KeyIf(Truthy(Lookup(n.options, "date_begin")), "date_begin")
              + KeyIf(Truthy(Lookup(n.options, "date_end")), "date_end")
              + KeyIf(Truthy(Lookup(n.options, "limit")), "limit")
              + KeyIf(Lookup(n.options, "optimize") != Undefined, "optimize")
              + KeyIf(Lookup(n.options, "real_time") != Undefined, "real_time")
  {
    var b := DateStep(n, "date_begin", false);
    var e := DateStep(b, "date_end", true);
    var l := LimitStep(e);
    var f := FlagStep(l, "optimize");
    assert Lookup(b.options, "date_end") == Lookup(n.options, "date_end");
    assert Lookup(e.options, "limit") == Lookup(n.options, "limit");
    assert "optimize" != "date_end" by {
      assert "optimize"[0] != "date_end"[0];
    }
    assert Lookup(l.options, "optimize") == Lookup(n.options, "optimize");
    assert Lookup(f.options, "real_time") == Lookup(n.options, "real_time");
  }

  /** The limit and flag steps leave the query's other entries alone. */
  lemma LaterStepsKeepQuery(n: Norm, k: string)
    requires LaterSteps(n).Ready?
    requires k != "limit" && k != "optimize" && k != "real_time"
    requires k in DateStep(DateStep(n, "date_begin", false), "date_end", true).query
    ensures k in LaterSteps(n).query
    ensures LaterSteps(n).query[k] == DateStep(DateStep(n, "date_begin", false), "date_end", true).query[k]
  {
    var e := DateStep(DateStep(n, "date_begin", false), "date_end", true);
    var l := LimitStep(e);
    var f := FlagStep(l, "optimize");
    assert k in l.query && l.query[k] == e.query[k];
    assert k in f.query && f.query[k] == e.query[k];
  }

  /** The normalisation writes only `type` and the two dates into the caller's options. */
  lemma MeasureKeepsOtherOptions(kind: MeasureKind, o: map<string, Value>, k: string)
    requires k != "type" && k != "date_begin" && k != "date_end"
    ensures Lookup(NormalizeMeasure(kind, o).options, k) == Lookup(o, k)
  {
    var t := TypeStep(kind, o);
    assert Lookup(t.options, k) == Lookup(o, k);
    var b := DateStep(t, "date_begin", false);
    assert Lookup(b.options, k) == Lookup(o, k);
    var e := DateStep(b, "date_end", true);
    assert Lookup(e.options, k) == Lookup(o, k);
  }

  /** The date option `'last'` is sent literally. */
  lemma LastPassesThrough(kind: MeasureKind, o: map<string, Value>)
    requires NormalizeMeasure(kind, o).Ready?
    requires Lookup(o, "date_end") == Str("last")
    ensures "date_end" in NormalizeMeasure(kind, o).query
    ensures NormalizeMeasure(kind, o).query["date_end"] == Str("last")
  {
    var t := TypeStep(kind, o);
    LaterStepsKeepOptions(t, "limit");
    var b := DateStep(t, "date_begin", false);
    assert Lookup(b.options, "date_end") == Str("last");
    var e := DateStep(b, "date_end", true);
    assert e.query["date_end"] == Str("last");
    LaterStepsKeepQuery(t, "date_end");
  }

  /** The sent `limit` never exceeds 1024 and is the caller's value otherwise. */
  lemma LimitClamped(kind: MeasureKind, o: map<string, Value>, n: int)
    requires NormalizeMeasure(kind, o).Ready?
    requires Lookup(o, "limit") == Num(n) && n != 0
    ensures "limit" in NormalizeMeasure(kind, o).query
    ensures NormalizeMeasure(kind, o).query["limit"] == Num(if n > MaxLimit then MaxLimit else n)
  {
    var t := TypeStep(kind, o);
    var e := DateStep(DateStep(t, "date_begin", false), "date_end", true);
    assert Lookup(e.options, "limit") == Num(n);
    var l := LimitStep(e);
    assert l.query["limit"] == Num(ClampLimit(n));
    assert FlagStep(l, "optimize").query["limit"] == Num(ClampLimit(n));
  }

  /** The base keys, and each optional key the caller set. */
  function QueryKeySet(kind: MeasureKind, o: map<string, Value>): set<string> {
    BaseKeySet(kind)
    + KeyIf(kind == StationMeasure && Truthy(Lookup(o, "module_id")), "module_id")
    + KeyIf(Truthy(Lookup(o, "date_begin")), "date_begin")
    + KeyIf(Truthy(Lookup(o, "date_end")), "date_end")
    + KeyIf(Truthy(Lookup(o, "limit")), "limit")
    + KeyIf(Lookup(o, "optimize") != Undefined, "optimize")
    + KeyIf(Lookup(o, "real_time") != Undefined, "real_time")
  }

  /**
   * The query holds exactly the base keys and the optional keys the caller set;
   * no other option reaches the request.
   */
  lemma QueryKeys(kind: MeasureKind, o: map<string, Value>)
    requires NormalizeMeasure(kind, o).Ready?
    ensures NormalizeMeasure(kind, o).query.Keys == QueryKeySet(kind, o)
  {
    var t := TypeStep(kind, o);
    LaterStepsKeys(t);
    assert Lookup(t.options, "date_begin") == Lookup(o, "date_begin");
    assert Lookup(t.options, "date_end") == Lookup(o, "date_end");
    assert Lookup(t.options, "limit") == Lookup(o, "limit");
    assert Lookup(t.options, "optimize") == Lookup(o, "optimize");
    assert Lookup(t.options, "real_time") == Lookup(o, "real_time");
  }

  /** The date options are never among the base keys. */
  lemma DatesNotQueried(kind: MeasureKind)
    ensures "date_begin" !in BaseKeySet(kind) && "date_end" !in BaseKeySet(kind)
  {
  }

  /** A date whose second reading lands where its first did. */
  predicate StableDate(v: Value) {
    v.Num? && v.n != 0 ==> v.n > SecondsCutoff / 1000
  }

  lemma DateStepStable(n: Norm, m: Norm, key: string, allowLast: bool)
    requires n.Ready? && StableDate(Lookup(n.options, key))
    requires DateStep(n, key, allowLast).Ready?
    requires m.Ready? && m.query == n.query && Lookup(m.options, key) == Lookup(DateStep(n, key, allowLast).options, key)
    ensures DateStep(m, key, allowLast).Ready?
    ensures DateStep(m, key, allowLast).query == DateStep(n, key, allowLast).query
    ensures DateStep(m, key, allowLast).options == m.options
  {
    var d := Lookup(n.options, key);
    if Truthy(d) && d.Num? && !(allowLast && d == Str("last")) {
      if d.n <= SecondsCutoff {
        assert DateSeconds(d.n * 1000) == DateSeconds(d.n);
      }
    }
  }

  /**
   * The rewrite is stable: normalising the already rewritten options (as a replay
   * of a deferred call does) rewrites nothing more and sends the same query,
   * provided every numeric date lies after 1970-04-26.
   */
  lemma RewriteStable(kind: MeasureKind, o: map<string, Value>)
    requires NormalizeMeasure(kind, o).Ready?
    requires StableDate(Lookup(o, "date_begin")) && StableDate(Lookup(o, "date_end"))
    ensures var r := NormalizeMeasure(kind, o);
            NormalizeMeasure(kind, r.options) == r
  {
    var t1 := TypeStep(kind, o);
    var p := LaterSteps(t1).options;
    TypeStepOnOutput(kind, o);
    assert Lookup(t1.options, "date_begin") == Lookup(o, "date_begin");
    assert Lookup(t1.options, "date_end") == Lookup(o, "date_end");
    LaterStepsStable(t1, TypeStep(kind, p));
  }

  /**
   * Normalising the options a first normalisation left behind starts from the
   * same base query.
   */
  lemma TypeStepOnOutput(kind: MeasureKind, o: map<string, Value>)
    requires NormalizeMeasure(kind, o).Ready?
    ensures var p := NormalizeMeasure(kind, o).options;
            TypeStep(kind, p) == Ready(p, TypeStep(kind, o).query)
  {
    var t1 := TypeStep(kind, o);
    var p := LaterSteps(t1).options;
    forall k | k != "date_begin" && k != "date_end"
      ensures Lookup(p, k) == Lookup(t1.options, k)
    {
      LaterStepsKeepOptions(t1, k);
    }
    TypeStepAgain(kind, o, p);
  }

  /** The type text, once normalised, normalises to itself. */
  lemma TypeTextAgain(v: Value)
    requires TypeListText(v).Some?
    ensures TypeListText(Str(TypeListText(v).value)) == TypeListText(v)
  {
    NormalizeTextIdempotent(if v.Str? then v.s else ToJsString(v));
  }

  /** Normalising the type a second time changes neither the options nor the base query. */
  lemma TypeStepAgain(kind: MeasureKind, o: map<string, Value>, p: map<string, Value>)
    requires TypeStep(kind, o).Ready?
    requires forall k :: k != "date_begin" && k != "date_end" ==> Lookup(p, k) == Lookup(TypeStep(kind, o).options, k)
    ensures TypeStep(kind, p) == Ready(p, TypeStep(kind, o).query)
  {
    var t1 := TypeStep(kind, o);
    var t := TypeListText(Lookup(o, "type")).value;
    TypeTextAgain(Lookup(o, "type"));
    assert Lookup(p, "type") == Str(t);
    var t2 := TypeStep(kind, p);
    assert t2.options == p by {
      assert p["type" := Str(t)] == p;
    }
    BaseQueryAgrees(kind, t1, t2);
  }

  /** Two base queries read from options that agree away from the dates are equal. */
  lemma BaseQueryAgrees(kind: MeasureKind, t1: Norm, t2: Norm)
    requires t1.Ready? && t2.Ready?
    requires forall k :: k in t1.query ==> t1.query[k] == Lookup(t1.options, k)
    requires forall k :: k in t2.query ==> t2.query[k] == Lookup(t2.options, k)
    requires t1.query.Keys == t2.query.Keys
    requires forall k :: k != "date_begin" && k != "date_end" ==> Lookup(t2.options, k) == Lookup(t1.options, k)
    requires t1.query.Keys <= BaseKeySet(kind) + {"module_id"}
    ensures t2.query == t1.query
  {
    DatesNotQueried(kind);
    forall k | k in t2.query
      ensures t2.query[k] == t1.query[k]
    {
      assert k != "date_begin" && k != "date_end";
    }
  }

  /** With stable dates, running the later steps on their own output options changes nothing. */
  lemma LaterStepsStable(n: Norm, m: Norm)
    requires LaterSteps(n).Ready?
    requires StableDate(Lookup(n.options, "date_begin")) && StableDate(Lookup(n.options, "date_end"))
    requires m == Ready(LaterSteps(n).options, n.query)
    ensures LaterSteps(m) == LaterSteps(n)
  {
    var b1 := DateStep(n, "date_begin", false);
    var e1 := DateStep(b1, "date_end", true);
    var p := m.options;
    assert p == e1.options;
    DateStepStable(n, m, "date_begin", false);
    var b2 := DateStep(m, "date_begin", false);
    assert b2.options == p && b2.query == b1.query;
    assert Lookup(b1.options, "date_end") == Lookup(n.options, "date_end");
    assert Lookup(b2.options, "date_end") == Lookup(e1.options, "date_end");
    DateStepStable(b1, b2, "date_end", true);
    var e2 := DateStep(b2, "date_end", true);
    assert e2 == e1;
  }

  /**
   * The rewrite is not stable for early dates: a `date_begin` of d seconds with
   * d at most 1E7 is sent as d the first time, but the options now hold d * 1000,
   * which a second normalisation (a replay) reads as seconds and sends unchanged.
   */
  lemma EarlyDateDrifts(kind: MeasureKind, o: map<string, Value>, d: int)
    requires NormalizeMeasure(kind, o).Ready?
    requires Lookup(o, "date_begin") == Num(d) && d != 0 && d <= SecondsCutoff / 1000
    ensures "date_begin" in NormalizeMeasure(kind, o).query
    ensures NormalizeMeasure(kind, o).query["date_begin"] == Num(d)
    ensures var again := NormalizeMeasure(kind, NormalizeMeasure(kind, o).options);
            again.Ready? && "date_begin" in again.query && again.query["date_begin"] == Num(d * 1000) && d * 1000 != d
  {
    ReplayReady(kind, o);
    SecondsDateRewritten(kind, o, d);
    var p := NormalizeMeasure(kind, o).options;
    assert Lookup(p, "date_begin") == Num(d * 1000);
    assert d * 1000 <= SecondsCutoff;
    SecondsDateRewritten(kind, p, d * 1000);
  }

  /** A non-zero `date_begin` at or below the cut-off is sent as is and stored times 1000. */
  lemma SecondsDateRewritten(kind: MeasureKind, o: map<string, Value>, d: int)
    requires NormalizeMeasure(kind, o).Ready?
    requires Lookup(o, "date_begin") == Num(d) && d != 0 && d <= SecondsCutoff
    ensures "date_begin" in NormalizeMeasure(kind, o).query
    ensures NormalizeMeasure(kind, o).query["date_begin"] == Num(d)
    ensures Lookup(NormalizeMeasure(kind, o).options, "date_begin") == Num(d * 1000)
  {
    var t1 := TypeStep(kind, o);
    var b1 := DateStep(t1, "date_begin", false);
    var e1 := DateStep(b1, "date_end", true);
    assert Lookup(t1.options, "date_begin") == Num(d);
    assert b1.query["date_begin"] == Num(d);
    LaterStepsKeepQuery(t1, "date_begin");
    assert Lookup(e1.options, "date_begin") == Num(d * 1000);
  }

  /**
   * A replay of a call whose normalisation completed completes too: the options it
   * left behind normalise without throwing.
   */
  lemma ReplayReady(kind: MeasureKind, o: map<string, Value>)
    requires NormalizeMeasure(kind, o).Ready?
    ensures NormalizeMeasure(kind, NormalizeMeasure(kind, o).options).Ready?
  {
    var t1 := TypeStep(kind, o);
    var b1 := DateStep(t1, "date_begin", false);
    var e1 := DateStep(b1, "date_end", true);
    var p := LaterSteps(t1).options;
    assert p == e1.options;
    TypeStepOnOutput(kind, o);
    var t2 := TypeStep(kind, p);
    assert Lookup(p, "date_begin") == Lookup(b1.options, "date_begin");
    var d := Lookup(b1.options, "date_begin");
    assert !Truthy(d) || d.Num?;
    assert Lookup(t2.options, "date_begin") == d;
    var b2 := DateStep(t2, "date_begin", false);
    assert b2.Ready?;
    SecondPassReady(b1, b2);
  }

  /**
   * Once the date steps have run, a second run of the remaining steps on the
   * rewritten options gets as far as the first did.
   */
  lemma SecondPassReady(b1: Norm, b2: Norm)
    requires FlagStep(FlagStep(LimitStep(DateStep(b1, "date_end", true)), "optimize"), "real_time").Ready?
    requires b2.Ready?
    requires forall k :: k != "date_begin" ==> Lookup(b2.options, k) == Lookup(DateStep(b1, "date_end", true).options, k)
    ensures FlagStep(FlagStep(LimitStep(DateStep(b2, "date_end", true)), "optimize"), "real_time").Ready?
  {
    var e1 := DateStep(b1, "date_end", true);
    assert e1.Ready?;
    assert Lookup(b2.options, "date_end") == Lookup(e1.options, "date_end");
    var e2 := DateStep(b2, "date_end", true);
    assert e2.Ready?;
    assert Lookup(e2.options, "limit") == Lookup(e1.options, "limit");
  }

  /** An array of strings is joined with commas before the white space is stripped and the case lowered. */
  lemma TypeListJoinsArray(xs: seq<string>)
    ensures TypeListText(Arr(seq(|xs|, i requires 0 <= i < |xs| => Str(xs[i]))))
              == Some(NormalizeText(JoinWithCommas(xs)))
  {
    var items := seq(|xs|, i requires 0 <= i < |xs| => Str(xs[i]));
    StringsReadBack(items, xs);
  }

  /** Each string element of an array reads back as itself when the array is stringified. */
  lemma StringsReadBack(items: seq<Value>, xs: seq<string>)
    requires items == seq(|xs|, i requires 0 <= i < |xs| => Str(xs[i]))
    ensures seq(|items|, i requires 0 <= i < |items| =>
              if Nullish(items[i]) then "" else ToJsString(items[i])) == xs
  {
    var parts := seq(|items|, i requires 0 <= i < |items| =>
        if Nullish(items[i]) then "" else ToJsString(items[i]));
    forall i | 0 <= i < |xs| ensures parts[i] == xs[i] {
      assert items[i] == Str(xs[i]);
    }
  }

  /**
   * A date given in seconds and the same instant given in milliseconds are
   * normalised alike, in either date option: the same query is sent and the same
   * options are left behind, for every instant after 1970-04-26.
   */
  lemma SecondsAndMillisNormalizeAlike(kind: MeasureKind, o: map<string, Value>, key: string, s: int)
    requires key == "date_begin" || key == "date_end"
    requires SecondsCutoff / 1000 < s <= SecondsCutoff
    ensures var r1 := NormalizeMeasure(kind, o[key := Num(s)]);
            var r2 := NormalizeMeasure(kind, o[key := Num(s * 1000)]);
            (r1.Ready? <==> r2.Ready?) && (r1.Ready? ==> r1 == r2)
  {
    var t1 := TypeStep(kind, o[key := Num(s)]);
    var t2 := TypeStep(kind, o[key := Num(s * 1000)]);
    TypeStepsAlike(kind, o, key, s);
    if t1.Ready? {
      LaterStepsAlike(t1, t2, key, s);
    }
  }

  /** The type step neither reads nor writes the dates. */
  lemma TypeStepsAlike(kind: MeasureKind, o: map<string, Value>, key: string, s: int)
    requires key == "date_begin" || key == "date_end"
    ensures var t1 := TypeStep(kind, o[key := Num(s)]);
            var t2 := TypeStep(kind, o[key := Num(s * 1000)]);
            (t1.Ready? <==> t2.Ready?)
            && (t1.Ready? ==> t1.query == t2.query && Lookup(t2.options, key) == Num(s * 1000)
                              && t1.options == t2.options[key := Num(s)])
  {
    var t1 := TypeStep(kind, o[key := Num(s)]);
    var t2 := TypeStep(kind, o[key := Num(s * 1000)]);
    TypeOptionsAlike(kind, o, key, s);
    if t1.Ready? {
      assert Lookup(t1.options, "module_id") == Lookup(t2.options, "module_id");
      BaseQueryAgrees(kind, t1, t2);
    }
  }

  lemma TypeOptionsAlike(kind: MeasureKind, o: map<string, Value>, key: string, s: int)
    requires key == "date_begin" || key == "date_end"
    ensures var t1 := TypeStep(kind, o[key := Num(s)]);
            var t2 := TypeStep(kind, o[key := Num(s * 1000)]);
            (t1.Ready? <==> t2.Ready?)
            && (t1.Ready? ==> Lookup(t2.options, key) == Num(s * 1000) && t1.options == t2.options[key := Num(s)])
  {
    var o1 := o[key := Num(s)];
    var o2 := o[key := Num(s * 1000)];
    assert key != "type" by {
      assert key[0] == 'd' && "type"[0] == 't';
    }
    assert Lookup(o1, "type") == Lookup(o2, "type");
    match TypeListText(Lookup(o, "type"))
    case None =>
    case Some(t) =>
      UpdatesCommute(o, key, Num(s), Num(s * 1000), "type", Str(t));
  }

  lemma UpdatesCommute(m: map<string, Value>, k: string, a: Value, b: Value, j: string, v: Value)
    requires k != j
    ensures m[k := a][j := v] == m[k := b][j := v][k := a]
    ensures k in m[k := b][j := v] && m[k := b][j := v][k] == b
  {
  }

  /** The date, limit and flag steps read seconds and milliseconds of the same instant alike. */
  lemma LaterStepsAlike(t1: Norm, t2: Norm, key: string, s: int)
    requires key == "date_begin" || key == "date_end"
    requires SecondsCutoff / 1000 < s <= SecondsCutoff
    requires t1.Ready? && t2.Ready? && t1.query == t2.query
    requires Lookup(t2.options, key) == Num(s * 1000) && t1.options == t2.options[key := Num(s)]
    ensures LaterSteps(t1).Ready? <==> LaterSteps(t2).Ready?
    ensures LaterSteps(t1).Ready? ==> LaterSteps(t1) == LaterSteps(t2)
  {
    var b1 := DateStep(t1, "date_begin", false);
    var b2 := DateStep(t2, "date_begin", false);
    if key == "date_begin" {
      DateStepsAlike(t1, t2, key, false, s);
      assert b1 == b2;
    } else {
      assert Lookup(t1.options, "date_begin") == Lookup(t2.options, "date_begin");
      if b1.Ready? {
        assert b2.Ready? && b1.query == b2.query;
        assert b1.options == b2.options[key := Num(s)];
        DateStepsAlike(b1, b2, key, true, s);
      } else {
        assert b2.Stopped?;
      }
    }
  }

  /** One date step reads seconds and milliseconds of the same instant alike. */
  lemma DateStepsAlike(n1: Norm, n2: Norm, key: string, allowLast: bool, s: int)
    requires n1.Ready? && n2.Ready? && n1.query == n2.query
    requires SecondsCutoff / 1000 < s <= SecondsCutoff
    requires Lookup(n2.options, key) == Num(s * 1000) && n1.options == n2.options[key := Num(s)]
    ensures DateStep(n1, key, allowLast) == DateStep(n2, key, allowLast)
  {
    SecondsAndMillisAgree(s);
    assert n1.options[key := Num(s * 1000)] == n2.options;
  }

  /** `getPublicData` throws when `required_data` is left out. */
  lemma PublicDataNeedsRequiredData(o: map<string, Value>)
    requires "required_data" !in o
    ensures NormalizePublicData(o).None?
  {
  }
}
