/**
 * The decisions of the session manager that do not touch state: which
 * argument check fails first, which OAuth2 grant is used, the token-request
 * forms, and what a token-endpoint reply grants.
 */
module Auth {
  import opened Js
  import opened Classifier

  /** The scope requested when the caller gives none. */
  const DefaultScope: string :=
    "read_station read_thermostat write_thermostat read_camera write_camera access_camera read_presence access_presence read_smokedetector read_homecoach"

  /** Path of the token endpoint, relative to the service's base URL. */
  const TokenPath: string := "/oauth2/token"

  /**
   * The module-level `client_id` and `client_secret` that the refresh reads.
   * Nothing ever assigns them, so they stay undefined.
   */
  const ModuleClientId: Value := Undefined
  const ModuleClientSecret: Value := Undefined

  const ArgsMissing: string := "Authenticate 'args' not set."
  const ClientIdMissing: string := "Authenticate 'client_id' not set."
  const ClientSecretMissing: string := "Authenticate 'client_secret' not set."
  const NoGrant: string := "No valid authentication parameters set."

  /** The fields of the `args` object given to `authenticate`. */
  type Args = map<string, Value>

  function Arg(a: Args, key: string): Value {
    if key in a then a[key] else Undefined
  }

  datatype GrantType = PasswordGrant | CodeGrant

  /** username and password win over an authorization code. */
  function SelectGrant(a: Args): (g: Option<GrantType>)
    ensures g == Some(PasswordGrant) <==> Truthy(Arg(a, "username")) && Truthy(Arg(a, "password"))
    ensures g == Some(CodeGrant) <==>
              !(Truthy(Arg(a, "username")) && Truthy(Arg(a, "password"))) && Truthy(Arg(a, "code"))
  {
    if Truthy(Arg(a, "username")) && Truthy(Arg(a, "password")) then Some(PasswordGrant)
    else if Truthy(Arg(a, "code")) then Some(CodeGrant)
    else None
  }

  function GrantTypeName(g: GrantType): string {
    match g
    case PasswordGrant => "password"
    case CodeGrant => "authorization_code"
  }

  /** `args.scope || <default list>`: the caller's scope when truthy, the default list otherwise. */
  function Scope(a: Args): (s: Value)
    ensures Truthy(s)
    ensures Truthy(Arg(a, "scope")) ==> s == Arg(a, "scope")
    ensures !Truthy(Arg(a, "scope")) ==> s == Str(DefaultScope)
  {
    if Truthy(Arg(a, "scope")) then Arg(a, "scope") else Str(DefaultScope)
  }

  /** The form posted to the token endpoint for the given grant. */
  function TokenForm(a: Args, g: GrantType): (form: map<string, Value>)
    ensures form.Keys == {"client_id", "client_secret", "scope", "grant_type"}
                         + (if g == PasswordGrant then {"username", "password"} else {"code"})
                         + (if Truthy(Arg(a, "redirect_uri")) then {"redirect_uri"} else {})
    ensures "client_id" in form && form["client_id"] == Arg(a, "client_id")
    ensures "client_secret" in form && form["client_secret"] == Arg(a, "client_secret")
    ensures "grant_type" in form && form["grant_type"] == Str(GrantTypeName(g))
    ensures "scope" in form && form["scope"] == (if Truthy(Arg(a, "scope")) then Arg(a, "scope") else Str(DefaultScope))
    ensures g == PasswordGrant ==> "username" in form && form["username"] == Arg(a, "username")
    ensures g == PasswordGrant ==> "password" in form && form["password"] == Arg(a, "password")
    ensures g == CodeGrant ==> "code" in form && form["code"] == Arg(a, "code")
    ensures "redirect_uri" in form ==> form["redirect_uri"] == Arg(a, "redirect_uri")
  {
    var base := map["client_id" := Arg(a, "client_id"), "client_secret" := Arg(a, "client_secret"), "scope" := Scope(a)];
    var granted :=
      match g
      case PasswordGrant =>
        base["grant_type" := Str("password")]["username" := Arg(a, "username")]["password" := Arg(a, "password")]
      case CodeGrant =>
        base["grant_type" := Str("authorization_code")]["code" := Arg(a, "code")];
    if Truthy(Arg(a, "redirect_uri")) then granted["redirect_uri" := Arg(a, "redirect_uri")] else granted
  }

  /** What `authenticate` does before any reply arrives. */
  datatype AuthPlan =
    | Reject(message: string)
    | UseToken(token: Value)
    | RequestToken(form: map<string, Value>)

  /**
   * `authenticate(args)`: the checks run in order and the first failure is the
   * one reported; a pre-issued access token short-circuits all of them.
   */
  function PlanAuthenticate(args: Option<Args>): (r: AuthPlan)
    ensures r.UseToken? <==> args.Some? && Truthy(Arg(args.value, "access_token"))
    ensures r.UseToken? ==> r.token == Arg(args.value, "access_token")
    ensures r == Reject(ArgsMissing) <==> args.None?
    ensures r == Reject(ClientIdMissing) <==>
              args.Some? && !Truthy(Arg(args.value, "access_token")) && !Truthy(Arg(args.value, "client_id"))
    ensures r == Reject(ClientSecretMissing) <==>
              args.Some? && !Truthy(Arg(args.value, "access_token")) && Truthy(Arg(args.value, "client_id"))
              && !Truthy(Arg(args.value, "client_secret"))
    ensures r == Reject(NoGrant) <==>
              args.Some? && !Truthy(Arg(args.value, "access_token")) && Truthy(Arg(args.value, "client_id"))
              && Truthy(Arg(args.value, "client_secret")) && SelectGrant(args.value).None?
    ensures r.RequestToken? ==>
              args.Some? && SelectGrant(args.value).Some?
              && r.form == TokenForm(args.value, SelectGrant(args.value).value)
  {
    if args.None? then Reject(ArgsMissing)
    else
      var a := args.value;
      if Truthy(Arg(a, "access_token")) then UseToken(Arg(a, "access_token"))
      else if !Truthy(Arg(a, "client_id")) then Reject(ClientIdMissing)
      else if !Truthy(Arg(a, "client_secret")) then Reject(ClientSecretMissing)
      else
        match SelectGrant(a)
        case None => Reject(NoGrant)
        case Some(g) => RequestToken(TokenForm(a, g))
  }

  /** The form `authenticate_refresh` posts, built from the never-assigned module variables. */
  function RefreshForm(refreshToken: Value): (form: map<string, Value>)
    ensures form.Keys == {"grant_type", "refresh_token", "client_id", "client_secret"}
    ensures form["grant_type"] == Str("refresh_token") && form["refresh_token"] == refreshToken
    ensures form["client_id"] == Undefined && form["client_secret"] == Undefined
  {
    map["grant_type" := Str("refresh_token"), "refresh_token" := refreshToken,
        "client_id" := ModuleClientId, "client_secret" := ModuleClientSecret]
  }

  /** A timer armed to call `authenticate_refresh(refreshToken)` after `delayMs`. */
  datatype ScheduledRefresh = ScheduledRefresh(delayMs: Option<int>, refreshToken: Value)

  /** What a 200 reply from the token endpoint grants. */
  datatype TokenGrant = TokenGrant(accessToken: Value, refresh: Option<ScheduledRefresh>)

  /**
   * `body.expires_in * 1000`; None when expires_in is not an integer (JavaScript's
   * coercion of other values to a delay is not modelled).
   */
  function DelayMs(expiresIn: Value): (r: Option<int>)
    ensures r.Some? <==> expiresIn.Num?
    ensures r.Some? ==> r.value == expiresIn.n * 1000 && (expiresIn.n > 0 ==> r.value >= 1000)
  {
    if expiresIn.Num? then Some(expiresIn.n * 1000) else None
  }

  function GrantOf(doc: Value): (g: TokenGrant)
    ensures g.accessToken == Field(doc, "access_token")
    ensures g.refresh.Some? <==> Truthy(Field(doc, "expires_in"))
    ensures g.refresh.Some? ==> g.refresh.value.refreshToken == Field(doc, "refresh_token")
    ensures g.refresh.Some? && Field(doc, "expires_in").Num? ==>
              g.refresh.value.delayMs == Some(Field(doc, "expires_in").n * 1000)
  {
    var expiresIn := Field(doc, "expires_in");
    TokenGrant(Field(doc, "access_token"),
               if Truthy(expiresIn) then Some(ScheduledRefresh(DelayMs(expiresIn), Field(doc, "refresh_token"))) else None)
  }

  datatype TokenReply =
    | Rejected(classification: Classification)
    | Unreadable(kind: ThrowKind)
    | Granted(grant: TokenGrant)

  /** The reply callback shared by `authenticate` and `authenticate_refresh`, up to its effects. */
  function ReadTokenReply(x: Exchange, context: string, critical: bool): (r: TokenReply)
    ensures r.Rejected? <==> Failed(x)
    ensures r.Rejected? ==> r.classification == ClassifyExchange(x, context, critical)
    ensures r.Granted? <==> !Failed(x) && ParseJson(x.body).Some? && !Nullish(ParseJson(x.body).value)
    ensures r.Granted? ==> x.Reply? && x.head.status == 200 && r.grant == GrantOf(ParseJson(x.body).value)
    ensures !Failed(x) && ParseJson(x.body).None? ==> r == Unreadable(SyntaxError)
    ensures !Failed(x) && ParseJson(x.body).Some? && Nullish(ParseJson(x.body).value) ==> r == Unreadable(TypeError)
  {
    if Failed(x) then Rejected(ClassifyExchange(x, context, critical))
    else
      match ParseJson(x.body)
      case None => Unreadable(SyntaxError)
      case Some(doc) => if Nullish(doc) then Unreadable(TypeError) else Granted(GrantOf(doc))
  }

  // ---------------------------------------------------------------------------
  // Properties

  /** The password grant wins over an authorization code given beside it. */
  lemma PasswordWinsOverCode(a: Args)
    requires !Truthy(Arg(a, "access_token")) && Truthy(Arg(a, "client_id")) && Truthy(Arg(a, "client_secret"))
    requires Truthy(Arg(a, "username")) && Truthy(Arg(a, "password")) && Truthy(Arg(a, "code"))
    ensures PlanAuthenticate(Some(a)).RequestToken?
    ensures var f := PlanAuthenticate(Some(a)).form;
            f["grant_type"] == Str("password") && "code" !in f
  {
  }

  /** The refresh never sends the credentials the caller authenticated with. */
  lemma RefreshOmitsCallerCredentials(a: Args, refreshToken: Value)
    requires PlanAuthenticate(Some(a)).RequestToken?
    ensures RefreshForm(refreshToken)["client_id"] != PlanAuthenticate(Some(a)).form["client_id"]
    ensures RefreshForm(refreshToken)["client_secret"] != PlanAuthenticate(Some(a)).form["client_secret"]
  {
  }

  /** A refresh token sent with the first grant comes back in the form of the refresh it schedules. */
  lemma ScheduledRefreshCarriesToken(doc: Value, refreshToken: Value, seconds: int)
    requires doc.Obj? && "refresh_token" in doc.fields && "expires_in" in doc.fields
    requires doc.fields["refresh_token"] == refreshToken && doc.fields["expires_in"] == Num(seconds) && seconds != 0
    ensures GrantOf(doc).refresh == Some(ScheduledRefresh(Some(seconds * 1000), refreshToken))
    ensures RefreshForm(GrantOf(doc).refresh.value.refreshToken)["refresh_token"] == refreshToken
  {
  }
}
