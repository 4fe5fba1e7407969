# netatmo.js client core in Dafny

This project models the decision-making core of the `netatmo.js` client for the
Netatmo weather, security, energy and home-coach API. The model covers:

- the session and token lifecycle: `authenticate`, `authenticate_refresh`, the
  module-level `access_token` and the refresh timers;
- the deferred dispatch gate: without a token, every API method registers a
  persistent `authenticated` listener instead of sending. Five of those listeners
  call a different method than the one registered. `renameHomeSchedule` hands
  its own name to `homeStatus` as options;
- `handleRequestError`, which classifies a failed exchange into a message and a
  channel (`error` or `warning`);
- the request descriptors of `makeAuthenticatedGetRequest` and
  `makeAuthenticatedPostRequest`. The POST writes the token into the caller's
  form in place;
- `validateRequiredParams`, the argument shuffle of `simpleGetRequest` /
  `simplePostRequest`, and the per-endpoint reply callbacks;
- the option normalisation of `getMeasure`, `getRoomMeasure` and
  `getPublicData`. It rewrites the caller's options in place and builds a fresh
  query.

The HTTP exchange is an input. It is either a transport error or a reply: a
status, an optional content type, and an optional body with its JSON parse.
`Client.Netatmo.Respond(i, x)` answers in-flight request `i` with exchange `x`.
`Client.Netatmo.FireTimer(i)` fires armed refresh timer `i`. Everything the
client makes observable goes into one ordered log:

- `error` and `warning` events;
- `authenticated`;
- data events;
- callback invocations.

Objects a caller passes in live in a heap of maps, addressed by `Ref`, so that
in-place writes are seen by every later use of the same object. The caller's
side of that heap is `Client.Netatmo.NewObject`, which allocates an object at a
fresh address and changes nothing else; no line of the library does this. A deferred call
replayed after authentication is one such later use.

Modules:

- `Js`: JavaScript values, truthiness, property lookup, string conversion and
  the whitespace and case helpers.
- `Classifier`: `handleRequestError`.
- `Auth`: the `authenticate` argument checks, the grant selection, the token
  forms and the reading of a token reply.
- `Params`: `validateRequiredParams` as a function, and the argument shuffle.
- `Measure`: the measure and public-data option normalisation.
- `Endpoints`: the table of the 23 API methods, each with its route or its
  forwarding, and the replay target of each.
- `Requests`: the request each route sends, what it leaves in the options, and
  what a reply callback emits.
- `Client`: the client object as a class. It holds the token, the listeners,
  the requests in flight, the timers, the heap and the event log.

Behaviour of the code that the model keeps as written:

- A failed reply with a body but no content-type header makes
  `handleRequestError` throw.
- A pre-issued `access_token` sets the token without emitting `authenticated`,
  so it does not replay the calls deferred before it. Only a later grant that
  answers an `authenticate` request replays them.
- Listeners are registered with `on`, not `once`. Every later `authenticated`
  replays them all again.
- The status message is `"Status code"` followed by the number, with no space.
- `validateRequiredParams` given null or undefined options emits
  "Options not set." and then throws in `Object.keys`.
- The refresh form sends the never-assigned module `client_id` and
  `client_secret`, so both are undefined.
- `redirect_uri` is forwarded with either grant.
- Endpoint failures go to `warning`. Only `authenticate` passes `critical`.

## Model

| member | source | states |
|---|---|---|
| Js.DecimalRoundTrip | netatmo.js:41 | the decimal rendering of a status code reads back as the same number |
| Js.StripSpacesIdempotent | netatmo.js:202 | removing white space twice is removing it once |
| Js.LowerAsciiIdempotent | netatmo.js:302 | lower-casing twice is lower-casing once |
| Js.StripLowerCommute | netatmo.js:302 | removing white space and lower-casing commute |
| Js.NormalizeTextIdempotent | netatmo.js:302 | the normalised type list normalises to itself |
| Classifier.Classify | netatmo.js:35-53 | the message starts with `context + ": "` and goes to the channel `critical` selects; no body and no response gives "No response"; a throw needs a body |
| Classifier.ErrorArgumentIgnored | netatmo.js:36-46 | the `err` argument never changes the classification |
| Classifier.JsonPrefixedContentType | netatmo.js:37 | a trimmed, lower-case content type starting `application/json` is recognised as JSON |
| Classifier.PlainJsonContentType | netatmo.js:37 | `application/json` itself is recognised |
| Classifier.JsonErrorMessage | netatmo.js:37-39 | a JSON body `{"error": {"message": m}}` yields `context: m`, whatever the status |
| Classifier.ErrorDetail | netatmo.js:38-39 | a falsy document is rendered as text; a truthy one without `error` throws; a string `error` is the detail |
| Classifier.JsonErrorString | netatmo.js:39 | a JSON body whose `error` is a string yields that string, on the channel `critical` selects |
| Classifier.NonJsonBodyGivesStatus | netatmo.js:40-41 | a non-JSON body yields `context: Status code<N>` with no space |
| Classifier.EmptyBodyGivesStatus | netatmo.js:36-41 | an absent or empty body with a response yields the status code, whatever the content type |
| Classifier.CrashesWithoutContentType | netatmo.js:37 | a body with no response, or with no content-type header, throws a TypeError |
| Classifier.UnparsableJsonThrows | netatmo.js:38 | JSON content that does not parse throws a SyntaxError |
| Auth.SelectGrant | netatmo.js:85-97 | username and password select the password grant; otherwise a code selects the authorization-code grant; otherwise none |
| Auth.Scope | netatmo.js:82 | the caller's scope when truthy, the default list otherwise |
| Auth.TokenForm | netatmo.js:82-101 | the form holds exactly client_id, client_secret, scope (the caller's when truthy, the default list otherwise), grant_type and the grant's username and password or code, each with the caller's value; `redirect_uri` is added whenever truthy |
| Auth.PlanAuthenticate | netatmo.js:61-101 | the checks run in order: args, access_token, client_id, client_secret, grant; each failure is exactly its own message; a pre-issued token is adopted as is |
| Auth.RefreshForm | netatmo.js:142-147 | the refresh form holds grant_type `refresh_token`, the refresh token, and an undefined `client_id` and `client_secret` from the unset module variables |
| Auth.GrantOf | netatmo.js:115-121 | the grant stores `access_token`; a refresh is armed iff `expires_in` is truthy, after `expires_in * 1000` ms, with the reply's `refresh_token` |
| Auth.DelayMs | netatmo.js:120 | an integer `expires_in` gives a delay of that many seconds in milliseconds |
| Auth.ReadTokenReply | netatmo.js:109-121 | a transport error or a status other than 200 is rejected and classified; a 200 grants iff its body parses to a non-null document; an unparsable body throws a SyntaxError and a null document a TypeError |
| Auth.PasswordWinsOverCode | netatmo.js:85-93 | with username, password and code all given, the password grant is used and no code is sent |
| Auth.RefreshOmitsCallerCredentials | netatmo.js:142-147 | the refresh never sends the credentials the caller authenticated with |
| Auth.ScheduledRefreshCarriesToken | netatmo.js:119-121 | the refresh armed by a grant carries the reply's refresh token into the refresh form |
| Params.FirstMissing | netatmo.js:1066-1071 | none iff every required name is a key; otherwise the first name that is not a key, all earlier ones being keys |
| Params.Shuffle | netatmo.js:1076-1079 | options given without a callback become the callback, and the options become null; otherwise nothing changes |
| Params.NotAnIndexKey | netatmo.js:1067 | a name that is not a numeral is never a key of a string or an array |
| Params.PresenceNotTruthiness | netatmo.js:1067 | a key set to a falsy value still counts as present |
| Params.OnlyObjectsPass | netatmo.js:1067 | strings, arrays, numbers, booleans and functions fail on the first required name |
| Params.FirstMissingIsFirst | netatmo.js:1066-1071 | the first missing name is the one reported, whatever follows it |
| Measure.TypeListText | netatmo.js:297-302 | an array is joined with commas and a string is kept, both with white space removed and lower-cased; any other value throws |
| Measure.DateSeconds | netatmo.js:319-324 | a date at or below 1E10 is read as seconds, a larger one as milliseconds, and sent in seconds |
| Measure.ClampLimit | netatmo.js:336-342 | the sent limit is the smaller of the value and 1024 |
| Measure.BaseQuery | netatmo.js:307-311 | the fresh query starts with exactly the method's base keys, read from the options |
| Measure.TypeStep | netatmo.js:297-317 | the type rewrite is written into the options; module_id joins the query iff truthy, for station measures |
| Measure.DateStep | netatmo.js:318-334 | a date is queried iff truthy; `'last'` passes where allowed; a numeric date is stored as its millisecond value (times 1000 at or below 1E10) and sent as its Unix seconds |
| Measure.LimitStep | netatmo.js:336-342 | the limit is queried iff truthy, clamped to 1024 |
| Measure.FlagStep | netatmo.js:344-350 | a flag is queried iff not undefined, as the boolean of its truthiness |
| Measure.NormalizePublicData | netatmo.js:197-202 | completes iff `required_data` is an array or a string, and then stores its normalised text; every other option is kept |
| Measure.TypeListJoinsArray | netatmo.js:197-202 | an array of strings is joined with commas, then stripped of white space and lower-cased |
| Measure.NormalizeMeasure | netatmo.js:297-351 | a stopped normalisation ends abnormally; a completed one queries every base key |
| Measure.SecondsAndMillisAgree | netatmo.js:319-324 | s seconds and s*1000 milliseconds are sent as the same value for s above 1E7 |
| Measure.SecondsAndMillisNormalizeAlike | netatmo.js:318-334 | for either date option, s seconds and s*1000 milliseconds (s above 1E7) leave the same options and send the same query |
| Measure.TypeStepsAlike | netatmo.js:297-317 | the type step neither reads nor writes the dates |
| Measure.LaterStepsAlike | netatmo.js:318-350 | the date, limit and flag steps treat seconds and milliseconds of one instant alike |
| Measure.DateStepsAlike | netatmo.js:318-334 | one date step treats seconds and milliseconds of one instant alike |
| Measure.SmallMillisReadAsSeconds | netatmo.js:320 | a millisecond value at or below 1E10 is taken for seconds |
| Measure.LaterStepsKeepOptions | netatmo.js:318-350 | the date, limit and flag steps write only the two dates into the options |
| Measure.LaterStepsKeys | netatmo.js:318-350 | those steps add exactly one query key per option the caller set |
| Measure.LaterStepsKeepQuery | netatmo.js:318-350 | those steps never change a query entry already there, except their own keys |
| Measure.MeasureKeepsOtherOptions | netatmo.js:297-350 | the normalisation writes only `type` and the two dates into the caller's options |
| Measure.LastPassesThrough | netatmo.js:327-328 | `date_end === 'last'` is sent literally |
| Measure.LimitClamped | netatmo.js:336-342 | the sent limit never exceeds 1024 and equals the caller's value below it |
| Measure.QueryKeys | netatmo.js:307-350 | the query holds exactly the base keys and the optional keys the caller set |
| Measure.DatesNotQueried | netatmo.js:307-311 | the date options are not base keys |
| Measure.DateStepStable | netatmo.js:318-334 | a date step re-run on its own output with a stable date changes nothing |
| Measure.RewriteStable | netatmo.js:297-350 | normalising already rewritten options again sends the same query, when every date lies after 1970-04-26 |
| Measure.TypeStepOnOutput | netatmo.js:297-314 | the type step re-run on the output options gives the same base query |
| Measure.TypeTextAgain | netatmo.js:302 | the normalised type text normalises to itself |
| Measure.TypeStepAgain | netatmo.js:297-314 | normalising the type twice changes neither the options nor the base query |
| Measure.BaseQueryAgrees | netatmo.js:307-311 | base queries read from options that agree away from the dates are equal |
| Measure.LaterStepsStable | netatmo.js:318-350 | with stable dates, the later steps re-run on their output change nothing |
| Measure.EarlyDateDrifts | netatmo.js:319-324 | a date_begin of d seconds, d at most 1E7, is sent as d, but a second normalisation sends d*1000 |
| Measure.SecondsDateRewritten | netatmo.js:319-324 | a seconds date is sent as is and stored times 1000 in the options |
| Measure.ReplayReady | netatmo.js:297-350 | when a normalisation completes, normalising its output completes too |
| Measure.SecondPassReady | netatmo.js:336-350 | the limit and flag steps reach as far on a second pass as on the first |
| Measure.PublicDataNeedsRequiredData | netatmo.js:202 | getPublicData throws when `required_data` is absent |
| Endpoints.ReplayTarget | netatmo.js:590 | a listener calls its own method, getCameraPicture or homeStatus, and never renameHomeSchedule |
| Endpoints.DispatchOf | netatmo.js:847 | the one method that does not build its own request forwards to homeStatus |
| Endpoints.DispatchUsesTables | netatmo.js:183-1031 | every method with a route sends to its own path, validates its own names, and reports with its own context and event label |
| Endpoints.MiswiredReplays | netatmo.js:590 | exactly setPersonsAway, setPersonsHome, addWebHook, dropWebHook and renameHomeSchedule replay another method: getCameraPicture for the first four, homeStatus for the last |
| Endpoints.ReplayLandsOnRoute | netatmo.js:843 | a replay always lands on a method with a route of its own |
| Endpoints.OnlyRenameForwards | netatmo.js:847 | renameHomeSchedule is the only forwarding method, and it forwards to homeStatus |
| Endpoints.MiswiredReplayChangesVerb | netatmo.js:586-622 | a mis-wired replay turns a POST into a GET requiring image_id and key |
| Endpoints.RenameNeverSends | netatmo.js:847 | the string handed to homeStatus as options always fails the home_id check |
| Endpoints.ShuffleTwice | netatmo.js:390-398 | getHomeData's second shuffle never changes anything |
| Endpoints.PostsGuardOptions | netatmo.js:1049-1051 | every POST route checks its options or requires names before writing the token |
| Endpoints.OnlyMeasuresNormalize | netatmo.js:285-353 | getMeasure and getRoomMeasure, and no other method, rewrite their options into a fresh query |
| Endpoints.MeasureValidatesBaseKeys | netatmo.js:294 | the measure methods validate exactly the base keys of their query |
| Requests.Arguments | netatmo.js:247-250 | only routes with the shuffle change the arguments; options either stay or become null |
| Requests.Validate | netatmo.js:1060-1073 | returns true iff no names are required or every one is a key; throws iff names are required and options are nullish; otherwise reports "Options not set." for falsy options and the first missing name |
| Requests.OptionsAfter | netatmo.js:1049-1051 | a GET of a plain route leaves the options alone; any route changes only access_token, required_data, type and the dates |
| Requests.OptionsKeptByMeasure | netatmo.js:297-350 | the measure rewrite keeps every option but type and the dates |
| Requests.RequestFor | netatmo.js:1034-1058 | the request goes to the route's path; a GET carries the current token as bearer, the options object as query or `{}` when falsy; a POST sends the caller's form with access_token set and other keys unchanged; getPublicData sends iff `required_data` can be normalised, with the options and that text as query; a measure query has exactly the keys of the query key set |
| Requests.MeasureRouteSends | netatmo.js:297-353 | a measure route sends the normalised query exactly when normalisation completes, and leaves the normalised options behind |
| Requests.CallbackEffect | netatmo.js:125-127 | a callback runs iff it is a function; a truthy non-function throws |
| Requests.Payload | netatmo.js:215-217 | the raw text when the route does not parse; otherwise the document's `body` field, and none when the body does not parse or parses to null |
| Requests.EndpointReply | netatmo.js:206-227 | a failure emits a warning with the classified message and no data, and hands the error to a function callback exactly on the three routes that do so; a success emits the data event with the payload, then calls a function callback with (null, payload); a truthy callback that is not a function throws and a falsy one is skipped; an unparsable success throws |
| Requests.BearerHeader | netatmo.js:1043 | the header is `Bearer ` followed by the token |
| Requests.PostTokenOverwritten | netatmo.js:1050 | a replayed POST overwrites the token written earlier; the request is as if the earlier write never happened |
| Requests.MiswiredReplayReportsImageId | netatmo.js:590 | a deferred people or webhook POST, replayed, reports `getCameraPicture 'image_id' not set.` and sends nothing |
| Requests.RenameReportsHomeId | netatmo.js:847 | renameHomeSchedule with a token reports `homeStatus 'home_id' not set.` and sends nothing |
| Client.ArgsOf | netatmo.js:62-66 | falsy args count as missing; every named argument is what `args.<name>` reads, for heap objects, literal objects and other values alike |
| Client.PreIssuedTokenAdopted | netatmo.js:67-70 | a truthy `args.access_token` is adopted, whatever form `args` takes |
| Client.Netatmo.constructor | netatmo.js:18-22 | a new client runs `authenticate(args)` with no callback |
| Client.Netatmo.Authenticate | netatmo.js:61-133 | a rejected check emits exactly its error and sends nothing; a pre-issued token is adopted with no event and no request; otherwise the token form is posted |
| Client.Netatmo.AuthenticateRefresh | netatmo.js:140-172 | the refresh form is posted and nothing else changes |
| Client.Netatmo.FireTimer | netatmo.js:120 | the timer is disarmed and posts a refresh with its token |
| Client.Netatmo.ValidateRequiredParams | netatmo.js:1060-1073 | the loop emits and returns exactly what the validation function states |
| Client.Netatmo.SendGet | netatmo.js:1034-1047 | a GET with the current token as bearer and the options, or `{}`, as query |
| Client.Netatmo.Enqueue | netatmo.js:1040-1047 | a request carrying the token joins the in-flight requests; nothing else changes |
| Client.Netatmo.SendPost | netatmo.js:1049-1058 | the token is written into the caller's form in place and that form is posted; null options throw |
| Client.Netatmo.NormalizeMeasureOptions | netatmo.js:297-351 | the options object is rewritten in place to what the normalisation function computes |
| Client.Netatmo.SendPlain | netatmo.js:1034-1058 | the route's request as the request function states |
| Client.Netatmo.SendPublicData | netatmo.js:197-204 | required_data is rewritten in place, then the options are sent |
| Client.Netatmo.SendNormalized | netatmo.js:297-353 | the options object ends as normalisation leaves it, and a GET of the fresh query is in flight exactly when normalisation completes |
| Client.Netatmo.SendMeasure | netatmo.js:297-353 | the options are rewritten in place, then the fresh query is sent |
| Client.Netatmo.Run | netatmo.js:189-195 | falsy options report `<name> 'options' not set.`; a failed validation emits its messages and sends nothing; options that pass are rewritten and sent as the route states |
| Client.Netatmo.Invoke | netatmo.js:183-187 | without a token a listener for the replay target with the same arguments is added and nothing else happens; with one the body runs and no listener is added |
| Client.Netatmo.Replay | netatmo.js:123 | the listeners registered so far run in order with their recorded arguments; none is removed; a throw stops the rest |
| Client.Netatmo.OnTokenReply | netatmo.js:109-130 | a rejected reply emits its classification and leaves the token; a grant stores the token and arms at most one refresh; every grant that answers `authenticate` emits `authenticated`, replays, and then calls a function callback with no arguments (a truthy non-function callback throws); a refresh grant never does any of these |
| Client.Netatmo.Respond | netatmo.js:206-227 | the answered request leaves the in-flight list; an endpoint reply's events and outcome are those of the reply callback; token and refresh replies update the token as the grant says, and a rejected or unreadable one is reported as `OnTokenReply` reports it |

## Left out

- The HTTP transport and `BASE_URL`: requests carry only their path, and replies are inputs.
- Real timers: an armed refresh is a (delay, refresh token) entry. Firing one is an input.
- `console.log` of the form and of failed bodies.
- The module-level `scope` variable: it is written and read at once, so that it outlives the call is not observable; the scope reaches the form directly.
- `JSON.parse` of arbitrary text: a body carries its parse result, or none.
- Floating point: numbers are integers. `moment` on a non-integer date and `parseInt` on a non-integer limit end the operation with the `OutsideModel` outcome.
- Unicode case mapping: lower-casing covers ASCII letters only.
- The text of error objects beyond their messages, and `util.format` of values other than strings and integers.
- Node's throw when `error` is emitted with no listener: an `error` listener is taken as present.
- Request bodies and query strings that are not objects: they reach the transport with the `OutsideModel` outcome.
- Callbacks and data listeners are logged, not run; a callback cannot re-enter the client.
- Several client instances: the module-level token is shared by all of them. The model has one instance and takes the token earlier instances left as a constructor argument.
- Payload contents: a reply's `body` field is passed on opaquely.
- Auth.DelayMs: an `expires_in` that is not an integer is not converted to a delay.
- Client.Netatmo.Invoke: with a token, the request sent is stated by `Run` for each route; `Invoke` itself only states the frame.
- Client.Netatmo.Respond: after a token grant, the events after `authenticated` are stated through `Replay` only as an extension of the log.
