# passport-odnoklassniki strategy, modelled in Dafny

The repository is a Passport strategy that logs users in through Odnoklassniki
with OAuth 2.0. Its own logic sits in `lib/passport-odnoklassniki/strategy.js`.
The generic OAuth 2.0 work happens in the `passport-oauth` base strategy. This
model covers the three parts the file adds on top of that base:

- The constructor fills in the provider's authorization URL, token URL and
  scope separator. It writes them into the caller's options object in place,
  keeping any truthy value the caller gave. It then sets the strategy's name to
  `odnoklassniki`.
- `authorizationParams` forwards a truthy `display` option to the
  authorization request and nothing else.
- `userProfile` fetches the profile resource from a constant URL, with the
  access token passed separately. It wraps a transport error as an
  `InternalOAuthError`. Otherwise it parses the body and maps fixed response
  keys onto Passport's normalised profile. It completes with exactly one
  outcome for `done`.

Files:

- `js.dfy` (module `Js`) holds the JavaScript values the strategy handles:
  JSON values, truthiness, `||`, and property reads. An absent property
  (`undefined`) is `None`.
- `strategy.dfy` (module `OdnoklassnikiStrategy`) holds the rest:
  - the caller's options object, as class `JsObject`;
  - the `Strategy` class, with its constructor and the `UserProfile` method;
  - the pure functions behind them, and the lemmas.

The model's external inputs:

- JSON.parse is the parameter `parse: string -> Option<Json>`. It returns
  `None` where JSON.parse throws.
- The OAuth 2.0 client's `getProtectedResource` is the parameter
  `transport: (url, token) -> FetchOutcome`.
- The callback `done` is the returned `Done` value, `Failed(err)` or
  `Succeeded(profile)`. So "exactly one of error and profile" holds by
  construction.

The profile mapping is stated against `Target`, the documented table read
backwards: for each response key, the profile field that holds it. For every
mapped key k, `MapProfile` and `Normalize` promise
`Target(profile, k) == Read(json, k)`. `ProfileDeterminedByTable` shows that
this promise, together with the provider, the single email, `_raw` and
`_json`, fixes the whole profile. So nothing else gets into it, and an absent
key stays absent with no default put in its place.
`ProfileReadsOnlySourceKeys` shows that keys outside the table have no effect.

Where the code and its tests disagree, the model follows the code. The success
test expects `provider` to be `facebook` (`test/strategy-test.js:107`), but
the code sets `odnoklassniki`. `FixtureProfile` states the code's value.

No request signature is computed: `strategy.js` sends the literals
`application_key=1` and `sig=1` with the profile request. The signed variant
of the provider API is not part of this model. That variant has an MD5
request signature, reads `uid`, `pic_1` and `pic_2`, and takes a `layout`
option.

## Model

| member | source | states |
|---|---|---|
| `Js.Or` | lib/passport-odnoklassniki/strategy.js:46-48 | JavaScript's logical or is its left operand when it is truthy and the right one otherwise |
| `Js.Read` | lib/passport-odnoklassniki/strategy.js:112-122 | reading `json.key` from a value other than null gives the object's own property, or `undefined` when the key is absent or the value is not an object |
| `OdnoklassnikiStrategy.WithDefaults` | lib/passport-odnoklassniki/strategy.js:45-48 | `authorizationURL`, `tokenURL` and `scopeSeparator` keep a truthy caller value; a falsy or absent one becomes `http://www.odnoklassniki.ru/oauth/authorize`, `http://api.odnoklassniki.ru/oauth/token.do` or `,`; every other option is unchanged; the keys are the old keys plus those three |
| `OdnoklassnikiStrategy.DefaultedOptionsAreTruthy` | lib/passport-odnoklassniki/strategy.js:45-48 | after defaulting, the three options are always truthy |
| `OdnoklassnikiStrategy.WithDefaultsIdempotent` | lib/passport-odnoklassniki/strategy.js:45-48 | reusing an options object for a second strategy changes nothing further, because defaulting is idempotent |
| `OdnoklassnikiStrategy.Strategy.constructor` | lib/passport-odnoklassniki/strategy.js:43-52 | the caller's options object, or a fresh one when none is given, ends up holding `WithDefaults` of its old properties, and that object is the one handed on; `name` is `odnoklassniki` whatever the options were |
| `OdnoklassnikiStrategy.AuthorizationParams` | lib/passport-odnoklassniki/strategy.js:70-80 | the result has a `display` key exactly when the `display` option is truthy; its value is then that option's value; the result has no other key |
| `OdnoklassnikiStrategy.AuthorizationParamsReadOnlyDisplay` | lib/passport-odnoklassniki/strategy.js:70-80 | two option maps with the same `display` value give the same parameters |
| `OdnoklassnikiStrategy.MapProfile` | lib/passport-odnoklassniki/strategy.js:110-125 | provider is `odnoklassniki`; each mapped response key (`id`, `username`, `name`, `last_name`, `first_name`, `middle_name`, `gender`, `link`, `email`) sits in its documented profile field, absent when absent; there is exactly one email; `_raw` is the body and `_json` the parsed value |
| `OdnoklassnikiStrategy.ProfileDeterminedByTable` | lib/passport-odnoklassniki/strategy.js:85-96 | two profiles that agree on the provider, the single email, every mapped field, `_raw` and `_json` are equal, so the mapping table leaves nothing else in a profile |
| `OdnoklassnikiStrategy.ProfileReadsOnlySourceKeys` | lib/passport-odnoklassniki/strategy.js:110-125 | responses that agree on the mapped keys give profiles that differ at most in `_json`, so no other response key is copied |
| `OdnoklassnikiStrategy.Normalize` | lib/passport-odnoklassniki/strategy.js:105-131 | a fetch error gives `InternalOAuthError('failed to fetch user profile', err)` whatever the parser does, so the body is not parsed; an unparsable body gives a SyntaxError; a `null` body gives a TypeError; success happens exactly when the fetch succeeded and parsed to a value other than null, and then the profile satisfies the mapping table for that value, keeps the body and the value, and has one email |
| `OdnoklassnikiStrategy.Strategy.UserProfile` | lib/passport-odnoklassniki/strategy.js:102-132 | the request goes to the constant profile URL, which does not depend on the access token, and carries the token as a separate argument; `done` gets exactly `Normalize` of that fetch's outcome |
| `OdnoklassnikiStrategy.FixtureProfile` | test/strategy-test.js:82-125 | for the test suite's response body the profile has id `500308595`, username `jaredhanson`, display name `Jared Hanson`, family name `Hanson`, given name `Jared`, no middle name, gender `male`, the profile URL, one email `jaredhanson@example.com`, `_raw` equal to the body and `_json` equal to the parsed object |
| `OdnoklassnikiStrategy.UserProfileAsWritten` | lib/passport-odnoklassniki/strategy.js:104-106 | as written, the call throws before any request exactly when the `oauth2` property is undefined or null; otherwise `done` gets the fetch outcome |
| `OdnoklassnikiStrategy.AsWrittenNeverCallsDone` | lib/passport-odnoklassniki/strategy.js:104 | with `oauth2` undefined the call throws a TypeError even when the fixture fetch would have succeeded, so `done` is never called |

## Findings

| source | as written | input that shows it | evidently intended | confidence | as-written member | corrected member |
|---|---|---|---|---|---|---|
| lib/passport-odnoklassniki/strategy.js:104 | `console.log(this.oauth2._clientId)` reads the property `oauth2`, but the OAuth 2.0 client lives in `this._oauth2` (line 105) | any strategy built by the constructor, for example the one in `test/strategy-test.js:75-88` whose fetch returns the fixture body: `this.oauth2` is undefined, so reading `_clientId` throws a TypeError before the fetch, and `done` is never called | log `this._oauth2._clientId`, or nothing, and then fetch; `done` is called exactly once | not executed; medium, because it assumes the base strategy (not part of this model) defines no `oauth2` property | `OdnoklassnikiStrategy.AsWrittenNeverCallsDone` | `OdnoklassnikiStrategy.Strategy.UserProfile` |

## Left out

- The `passport-oauth` base strategy is not part of this model. That covers
  construction of the OAuth 2.0 client, the redirect, the exchange of the
  authorization code for a token, and `authenticate`. The constructor's
  `verify` callback is only passed on to the base strategy, so it is not a
  parameter here.
- HTTP transport and `getProtectedResource`: they are the `transport`
  parameter. The model does not show how the client attaches the token to
  the request.
- JSON.parse: it is the `parse` parameter. Which strings parse is not
  modelled.
- The output of `console.log` on line 104 is not modelled, because it is
  logging. Its property read is modelled, as a finding.
- Asynchrony: the callback style is not modelled; `done` is the returned
  value.
- OdnoklassnikiStrategy.Strategy.UserProfile: assumes `done` returns normally. As written,
  `done(null, profile)` sits inside the `try` (line 127). A `done` that threw
  would be called a second time, with its own exception.
- Js.Read: models a property read on a string, number, boolean or array as
  `undefined`. This holds for every mapped key except one: on a JSON string,
  `json.link` finds the inherited `String.prototype.link` function.
- NaN, a falsy number, cannot be an option value here, because JSON numbers
  do not include NaN.
- OdnoklassnikiStrategy.Strategy.constructor: takes an object or nothing.
  A truthy primitive passed as `options` would make the strict-mode
  assignments throw; that case is not modelled.
- OdnoklassnikiStrategy.AuthorizationParams: takes an options object. A call
  with `undefined`, which would throw, is left to the base strategy.
- The signed API variant and its MD5 request signature (`clientPublic`,
  `layout`, `uid`, photos, `https://ok.ru/profile/` URLs) are not modelled,
  because no code for them exists in `strategy.js`.
- `test/index-test.js` checks a `version` export through an undefined
  variable; the package entry point is not part of this model.
