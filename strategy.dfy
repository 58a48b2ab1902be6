/** The Odnoklassniki authentication strategy: the provider-specific part of an
    OAuth 2.0 strategy for the Passport middleware. The constructor fills in the
    provider's endpoints, `authorizationParams` forwards the display mode of the
    login dialog, and `userProfile` turns the provider's profile response into
    Passport's normalised profile. */
module OdnoklassnikiStrategy {
  import opened Js

  const StrategyName := "odnoklassniki"

  // Option keys the constructor defaults, and their defaults.
  const AuthorizationURLKey := "authorizationURL"
  const TokenURLKey := "tokenURL"
  const ScopeSeparatorKey := "scopeSeparator"
  const DefaultAuthorizationURL := "http://www.odnoklassniki.ru/oauth/authorize"
  const DefaultTokenURL := "http://api.odnoklassniki.ru/oauth/token.do"
  const DefaultScopeSeparator := ","

  /** The per-request option forwarded to the authorization request. */
  const DisplayKey := "display"

  /** The profile resource. The `application_key` and `sig` query parameters
      are the literal `1`: no signature is computed. */
  const ProfileResourceURL :=
    "http://api.odnoklassniki.ru/fb.do?method=users.getCurrentUser&application_key=" + "1" + "&sig=" + "1"

  const FetchFailedMessage := "failed to fetch user profile"

  /************************************************************************
   * Construction
   ************************************************************************/

  /** A caller's options object: a JavaScript object whose properties the
      constructor overwrites in place. */
  class JsObject {
    var props: map<string, Json>

    constructor (props: map<string, Json>)
      ensures this.props == props
    {
      this.props := props;
    }
  }

  /** The options after the constructor's three `options.key = options.key || default`
      assignments: a falsy (or absent) endpoint or separator is replaced by the
      provider's default, a truthy one is kept, and every other option is left
      as it was. */
  function WithDefaults(m: map<string, Json>): (r: map<string, Json>)
    ensures r.Keys == m.Keys + {AuthorizationURLKey, TokenURLKey, ScopeSeparatorKey}
    ensures forall k :: k in m && k != AuthorizationURLKey && k != TokenURLKey && k != ScopeSeparatorKey ==> r[k] == m[k]
    ensures r[AuthorizationURLKey] == if Truthy(Get(m, AuthorizationURLKey)) then m[AuthorizationURLKey] else Str(DefaultAuthorizationURL)
    ensures r[TokenURLKey] == if Truthy(Get(m, TokenURLKey)) then m[TokenURLKey] else Str(DefaultTokenURL)
    ensures r[ScopeSeparatorKey] == if Truthy(Get(m, ScopeSeparatorKey)) then m[ScopeSeparatorKey] else Str(DefaultScopeSeparator)
  {
    var m1 := m[AuthorizationURLKey := Or(Get(m, AuthorizationURLKey), Str(DefaultAuthorizationURL))];
    var m2 := m1[TokenURLKey := Or(Get(m1, TokenURLKey), Str(DefaultTokenURL))];
    m2[ScopeSeparatorKey := Or(Get(m2, ScopeSeparatorKey), Str(DefaultScopeSeparator))]
  }

  /** After defaulting, all three keys hold truthy values. */
  lemma DefaultedOptionsAreTruthy(m: map<string, Json>)
    ensures Truthy(Get(WithDefaults(m), AuthorizationURLKey))
    ensures Truthy(Get(WithDefaults(m), TokenURLKey))
    ensures Truthy(Get(WithDefaults(m), ScopeSeparatorKey))
  {
  }

  /** Handing the same options object to a second strategy changes nothing
      more: the options the first construction left behind are a fixed point. */
  lemma WithDefaultsIdempotent(m: map<string, Json>)
    ensures WithDefaults(WithDefaults(m)) == WithDefaults(m)
  {
  }

  /************************************************************************
   * Authorization request parameters
   ************************************************************************/

  /** `authorizationParams(options)`: `{display: options.display}` when that
      option is truthy, `{}` otherwise; no other option is copied. */
  function AuthorizationParams(options: map<string, Json>): (r: map<string, Json>)
    ensures r.Keys <= {DisplayKey}
    ensures DisplayKey in r <==> Truthy(Get(options, DisplayKey))
    ensures DisplayKey in r ==> r[DisplayKey] == options[DisplayKey]
  {
    var display := Get(options, DisplayKey);
    if Truthy(display) then map[DisplayKey := display.value] else map[]
  }

  /** The parameters depend on the `display` option alone. */
  lemma AuthorizationParamsReadOnlyDisplay(o1: map<string, Json>, o2: map<string, Json>)
    requires Get(o1, DisplayKey) == Get(o2, DisplayKey)
    ensures AuthorizationParams(o1) == AuthorizationParams(o2)
  {
  }

  /************************************************************************
   * Profile normalisation
   ************************************************************************/

  /** `new InternalOAuthError(message, err)` for a failed fetch, a JSON.parse
      failure, and the TypeError of reading a property of `null`. */
  datatype Error =
    | InternalOAuthError(message: string, oauthError: string)
    | SyntaxError
    | TypeError(readingKey: string)

  /** What the OAuth 2.0 client's `getProtectedResource` reports: an error or
      the response body. */
  datatype FetchOutcome = FetchErr(cause: string) | FetchOk(body: string)

  /** The request `userProfile` issues: the resource URL and the access token,
      passed separately. */
  datatype ResourceRequest = ResourceRequest(url: string, accessToken: string)

  /** The single call of `done`: `done(err)` or `done(null, profile)`. */
  datatype Done = Failed(err: Error) | Succeeded(profile: Profile)

  datatype Name = Name(familyName: Option<Json>, givenName: Option<Json>, middleName: Option<Json>)

  datatype Email = Email(value: Option<Json>)

  /** Passport's normalised profile; `raw` and `json` are the source's `_raw`
      and `_json`. */
  datatype Profile = Profile(
    provider: string,
    id: Option<Json>,
    username: Option<Json>,
    displayName: Option<Json>,
    name: Name,
    gender: Option<Json>,
    profileUrl: Option<Json>,
    emails: seq<Email>,
    raw: string,
    json: Json)

  /** The keys of the provider's response that the profile takes over. */
  const SourceKeys: set<string> :=
    {"id", "username", "name", "last_name", "first_name", "middle_name", "gender", "link", "email"}

  /** The documented mapping read backwards: the profile field that holds the
      response key `key` (`name` becomes `displayName`, `last_name` becomes
      `name.familyName`, `link` becomes `profileUrl`, `email` becomes the
      first email's `value`, and so on). */
  function Target(p: Profile, key: string): Option<Json> {
    if key == "id" then p.id
    else if key == "username" then p.username
    else if key == "name" then p.displayName
    else if key == "last_name" then p.name.familyName
    else if key == "first_name" then p.name.givenName
    else if key == "middle_name" then p.name.middleName
    else if key == "gender" then p.gender
    else if key == "link" then p.profileUrl
    else if key == "email" && |p.emails| > 0 then p.emails[0].value
    else None
  }

  /** The profile built from the parsed response `json` (not `null`) and the
      response body: every documented field holds the corresponding key of the
      response, or `undefined` when the response lacks it, there is exactly one
      email, and the body and parsed value are kept as they are. */
  function MapProfile(json: Json, body: string): (p: Profile)
    requires json != Null
    ensures p.provider == StrategyName
    ensures forall k :: k in SourceKeys ==> Target(p, k) == Read(json, k)
    ensures |p.emails| == 1
    ensures p.raw == body && p.json == json
  {
    Profile(
      StrategyName,
      Read(json, "id"),
      Read(json, "username"),
      Read(json, "name"),
      Name(Read(json, "last_name"), Read(json, "first_name"), Read(json, "middle_name")),
      Read(json, "gender"),
      Read(json, "link"),
      [Email(Read(json, "email"))],
      body,
      json)
  }

  /** What `done` receives for a fetch outcome, where `parse` stands for
      JSON.parse (`None` when it throws). A fetch error is wrapped and the body
      is not parsed; an unparsable body or a `null` one fails; anything else
      yields the profile of the parsed value. */
  function Normalize(outcome: FetchOutcome, parse: string -> Option<Json>): (r: Done)
    ensures outcome.FetchErr? ==> r == Failed(InternalOAuthError(FetchFailedMessage, outcome.cause))
    ensures outcome.FetchOk? && parse(outcome.body).None? ==> r == Failed(SyntaxError)
    ensures outcome.FetchOk? && parse(outcome.body) == Some(Null) ==> r == Failed(TypeError("id"))
    ensures r.Succeeded? <==> outcome.FetchOk? && parse(outcome.body).Some? && parse(outcome.body).value != Null
    ensures r.Succeeded? ==>
      && parse(outcome.body) == Some(r.profile.json)
      && r.profile.raw == outcome.body
      && r.profile.provider == StrategyName
      && |r.profile.emails| == 1
      && forall k :: k in SourceKeys ==> Target(r.profile, k) == Read(r.profile.json, k)
  {
    match outcome
    case FetchErr(cause) => Failed(InternalOAuthError(FetchFailedMessage, cause))
    case FetchOk(body) =>
      match parse(body)
      case None => Failed(SyntaxError)
      case Some(json) =>
        // The first property read, `json.id`, throws on `null`.
        if json == Null then Failed(TypeError("id"))
        else Succeeded(MapProfile(json, body))
  }

  /** Nothing but the table and the kept body and value goes into a profile:
      two profiles that agree on the provider, the number of emails, every
      mapped key, `_raw` and `_json` are the same profile. */
  lemma ProfileDeterminedByTable(p1: Profile, p2: Profile)
    requires p1.provider == p2.provider && p1.raw == p2.raw && p1.json == p2.json
    requires |p1.emails| == 1 && |p2.emails| == 1
    requires forall k :: k in SourceKeys ==> Target(p1, k) == Target(p2, k)
    ensures p1 == p2
  {
  }

  /** The part of a response object the profile can see. */
  function SourceView(m: map<string, Json>): (v: map<string, Json>)
    ensures v.Keys == m.Keys * SourceKeys
    ensures forall k :: k in v ==> v[k] == m[k]
  {
    map k | k in m && k in SourceKeys :: m[k]
  }

  /** No other key of the response is copied: responses that agree on the
      mapped keys give profiles that differ at most in `_json`. */
  lemma ProfileReadsOnlySourceKeys(m1: map<string, Json>, m2: map<string, Json>, body: string)
    requires SourceView(m1) == SourceView(m2)
    ensures MapProfile(Obj(m1), body) == MapProfile(Obj(m2), body).(json := Obj(m1))
  {
    var p1, p2 := MapProfile(Obj(m1), body), MapProfile(Obj(m2), body).(json := Obj(m1));
    forall k | k in SourceKeys
      ensures Target(p1, k) == Target(p2, k)
    {
      assert k in m1 <==> k in SourceView(m1);
      assert k in m2 <==> k in SourceView(m2);
    }
    ProfileDeterminedByTable(p1, p2);
  }

  /** The profile of the response in the strategy's test suite: the documented
      fields hold the response's values, the absent `middle_name` stays
      absent, and the provider is `odnoklassniki`. */
  const FixtureBody :=
    "{\"id\":\"500308595\",\"name\":\"Jared Hanson\",\"first_name\":\"Jared\",\"last_name\":\"Hanson\","
    + "\"link\":\"http:\\/\\/www.facebook.com\\/jaredhanson\",\"username\":\"jaredhanson\",\"gender\":\"male\","
    + "\"email\":\"jaredhanson\\u0040example.com\"}"

  const FixtureObject: map<string, Json> := map[
    "id" := Str("500308595"),
    "name" := Str("Jared Hanson"),
    "first_name" := Str("Jared"),
    "last_name" := Str("Hanson"),
    "link" := Str("http://www.facebook.com/jaredhanson"),
    "username" := Str("jaredhanson"),
    "gender" := Str("male"),
    "email" := Str("jaredhanson@example.com")]

  lemma FixtureProfile(parse: string -> Option<Json>)
    requires parse(FixtureBody) == Some(Obj(FixtureObject))
    ensures Normalize(FetchOk(FixtureBody), parse).Succeeded?
    ensures var p := Normalize(FetchOk(FixtureBody), parse).profile;
      && p.provider == "odnoklassniki"
      && p.id == Some(Str("500308595"))
      && p.username == Some(Str("jaredhanson"))
      && p.displayName == Some(Str("Jared Hanson"))
      && p.name == Name(Some(Str("Hanson")), Some(Str("Jared")), None)
      && p.gender == Some(Str("male"))
      && p.profileUrl == Some(Str("http://www.facebook.com/jaredhanson"))
      && p.emails == [Email(Some(Str("jaredhanson@example.com")))]
      && p.raw == FixtureBody
      && p.json == Obj(FixtureObject)
  {
    var p := Normalize(FetchOk(FixtureBody), parse).profile;
    assert p == MapProfile(Obj(FixtureObject), FixtureBody);
  }

  /************************************************************************
   * The strategy object
   ************************************************************************/

  class Strategy {
    /** The strategy's name, under which Passport registers it. */
    var name: string
    /** The options object handed on to the OAuth 2.0 base strategy. */
    var options: JsObject

    /** `new Strategy(options, verify)`: the caller's options object, or a
        fresh one when none is given, receives the defaults in place and is
        handed on; the name is `odnoklassniki` whatever the options hold. */
    constructor (options: JsObject?)
      modifies options
      ensures options != null ==> this.options == options && options.props == WithDefaults(old(options.props))
      ensures options == null ==> fresh(this.options) && this.options.props == WithDefaults(map[])
      ensures name == StrategyName
    {
      var opts: JsObject;
      if options != null {
        opts := options;
      } else {
        opts := new JsObject(map[]);
      }
      opts.props := opts.props[AuthorizationURLKey := Or(Get(opts.props, AuthorizationURLKey), Str(DefaultAuthorizationURL))];
      opts.props := opts.props[TokenURLKey := Or(Get(opts.props, TokenURLKey), Str(DefaultTokenURL))];
      opts.props := opts.props[ScopeSeparatorKey := Or(Get(opts.props, ScopeSeparatorKey), Str(DefaultScopeSeparator))];
      this.options := opts;
      this.name := StrategyName;
    }

    /** `userProfile(accessToken, done)`: one request to the constant profile
        resource with the token alongside, then exactly one outcome for `done`.
        `transport` stands for `getProtectedResource` and `parse` for
        JSON.parse. */
    method UserProfile(accessToken: string, transport: (string, string) -> FetchOutcome, parse: string -> Option<Json>)
      returns (request: ResourceRequest, done: Done)
      ensures request.url == ProfileResourceURL && request.accessToken == accessToken
      ensures done == Normalize(transport(request.url, request.accessToken), parse)
    {
      request := ResourceRequest(ProfileResourceURL, accessToken);
      var outcome := transport(request.url, request.accessToken);
      if outcome.FetchErr? {
        return request, Failed(InternalOAuthError(FetchFailedMessage, outcome.cause));
      }
      var body := outcome.body;
      var parsed := parse(body);
      if parsed.None? {
        return request, Failed(SyntaxError);
      }
      var json := parsed.value;
      if json == Null {
        return request, Failed(TypeError("id"));
      }
      var profile := MapProfile(json, body);
      done := Succeeded(profile);
    }
  }

  /************************************************************************
   * The logging line as written
   ************************************************************************/

  /** What a call of `userProfile` does when it first evaluates
      `this.oauth2._clientId`, given the value of the `oauth2` property: on
      `undefined` or `null` the read throws a TypeError out of the call before
      any request is made, so `done` is never called. */
  datatype Call = Threw(err: Error) | Returned(done: Done)

  function UserProfileAsWritten(oauth2: Option<Json>, accessToken: string,
                                transport: (string, string) -> FetchOutcome,
                                parse: string -> Option<Json>): (c: Call)
    ensures c.Threw? <==> oauth2 == None || oauth2 == Some(Null)
    ensures c.Returned? ==> c.done == Normalize(transport(ProfileResourceURL, accessToken), parse)
  {
    if oauth2 == None || oauth2 == Some(Null) then Threw(TypeError("_clientId"))
    else Returned(Normalize(transport(ProfileResourceURL, accessToken), parse))
  }

  /** The strategy never sets an `oauth2` property (the base strategy keeps
      its client in `_oauth2`), so as written every call throws and `done` is
      never called, even for the successful fetch of the test suite. */
  lemma AsWrittenNeverCallsDone(accessToken: string, parse: string -> Option<Json>)
    requires parse(FixtureBody) == Some(Obj(FixtureObject))
    ensures var transport := (url: string, token: string) => FetchOk(FixtureBody);
      && UserProfileAsWritten(None, accessToken, transport, parse) == Threw(TypeError("_clientId"))
      && Normalize(transport(ProfileResourceURL, accessToken), parse).Succeeded?
  {
  }
}
