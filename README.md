# cvkeep-frontend API layer — a Dafny model

This project models the logic inside the client-side API object of the CV
publishing front end (`src/shared/script/api/api.js`). Each domain method
in that object issues at most one HTTP request through `get` or `post`;
`getError` and `getDefaultLocale` issue none, and neither does
`changeAppLocale` for a user who is not logged in. `get` and `post` feed
the transport's answer to the optional `success`, `error` and `finally`
callbacks. Failures are normalised by `getError` first. Each domain method
returns a promise; when it issues a request, it decides from the response
body whether to resolve or reject.

What the model covers:

- **JavaScript values** (`json.dfy`): JSON bodies plus `undefined`. It
  includes JavaScript truthiness (an empty array or object is truthy; `""`,
  `0`, `null` and `undefined` are falsy). It also covers reading a property,
  which throws a TypeError on `null` and `undefined`. Object spread is
  modelled too.
- **The dispatcher** (`dispatch.dfy`): `getError`, and the ordered trace of
  callback runs that `get` and `post` produce for a given transport outcome.
  The trace is computed step by step by the methods `Get` and `Post`. The
  state of a promise is a function of that trace.
- **Locale resolution** (`locale.dfy`): `getDefaultLocale` over the stored
  preference and the browser language tag.
- **Domain methods** (`api.dfy`): the success predicates of `register`,
  `saveCv`, `changeUsername`/`changeUserEmail`/`changeUserPassword`,
  `confirmRegistration`, `checkResetPasswordHash` and `resetPassword`. Also
  the `forgotPass` payload, the `lang` back-fill of `getCredentials`, and
  `changeAppLocale`. Three operations change state in place and so are
  methods: `CheckResetPasswordHash` and `ResetPassword` overwrite `task` on
  the caller's `Payload` object, and `AppState.ChangeAppLocale` writes to an
  `AppState` object holding the locale, the two `lang` fields of the store
  and localStorage. The `forgotPass` payload is a new object and the
  `getCredentials` back-fill acts on a freshly parsed body, so both are
  functions over values.

The transport, `localStorage` and `navigator.language` are parameters of the
model. The transport's outcome is either a delivered response or a failure
with an optional response. A translated message `t(key)` is represented by
its key (`Message(UnexpectedError)`, `Message(OperationFailed)`).

Behaviour that follows from the code:

- When a success callback throws, `.catch` passes the exception to the error
  callback. So `success` and then `error` both run, and `finally` runs after
  them. The thrown TypeError has no `response`, so `getError` turns it into
  the unexpected-error message.
- A null or undefined body therefore makes every modelled domain method
  whose success callback reads the body reject with the unexpected-error
  message. The exceptions are `forgotPass` and logged-in `changeAppLocale`:
  they pass `resolve` itself as success callback, so a null body resolves
  with `null`. The rule covers `changeUsername`, which rejects with `false`
  only for a non-null body whose `updated` is falsy. It also covers the
  password-reset steps, which reject with the operation-failed message only
  for a non-null body whose `ok` is falsy.
- The module is an ES module and so runs in strict mode. When
  `getCredentials` sets `lang` on a primitive body (a string, number or
  boolean), that assignment throws. The call then rejects with the
  unexpected-error message.

Two details of the code:

- `getError` picks the first *truthy* field of `errors`, `message` and
  `error`: an empty string is skipped, while an empty array wins.
- `get` hands `success` the whole response, while `post` hands it only
  `response.data`.

## Model

| member | source | states |
|---|---|---|
| `Json.Spread` | src/shared/script/api/api.js:138 | the properties `{...v}` copies: an object's fields exactly; an array's elements and a string's characters under their decimal indices and no other keys; nothing for undefined, null, booleans and numbers; never a `task` key unless `v` is an object |
| `Dispatch.GetError` | src/shared/script/api/api.js:45-53 | with a response whose body is truthy: the first truthy of `errors`, `message`, `error`, else the body, which is always truthy; otherwise exactly the unexpected-error message; never the failure object itself |
| `Dispatch.EmptyErrorListWins` | src/shared/script/api/api.js:48-49 | an empty `errors` array is what `getError` returns, whatever `message` and `error` hold |
| `Dispatch.GetTrace` | src/shared/script/api/api.js:7-24 | when the transport answers and `success` is present, `get` first runs `success` on the whole response |
| `Dispatch.PostTrace` | src/shared/script/api/api.js:26-43 | when the transport answers and `success` is present, `post` first runs `success` on `response.data` |
| `Dispatch.CallbackOrder` | src/shared/script/api/api.js:7-43 | `success` runs once exactly when the transport answered and it is present; `error` runs once exactly when it is present and the transport failed or `success` threw; `finally` runs exactly once when present, and last; absent callbacks never run; a `success` run comes first |
| `Dispatch.ErrorGetsNormalised` | src/shared/script/api/api.js:14-18 | the error callback receives `getError` of the transport failure, or of what `success` threw |
| `Dispatch.PromisedSettles` | src/shared/script/api/api.js:26-43 | a promise whose error callback is `reject` rejects with the normalised error when the transport fails or its success callback throws, and otherwise settles as the success callback decided |
| `Dispatch.Run` | src/shared/script/api/api.js:7-43 | running the callbacks one by one yields the trace of `Chain`, and applying each run to the promise yields the trace's settlement |
| `Dispatch.Get` | src/shared/script/api/api.js:7-24 | issues a GET of the endpoint with no body; its trace is `GetTrace` and its settlement follows that trace |
| `Dispatch.Post` | src/shared/script/api/api.js:26-43 | issues a POST of `data` to the endpoint; its trace is `PostTrace` and its settlement follows that trace |
| `Locale.BeforeFirst` | src/shared/script/api/api.js:65 | `split('-')[0]` is a prefix of the tag without `-`, followed by `-` or by the end of the tag |
| `Locale.PortuguesePrefix` | src/shared/script/api/api.js:65-67 | the lower-cased text before the first `-` equals `pt` exactly when the tag's primary subtag is `pt` in any letter case |
| `Locale.DefaultLocale` | src/shared/script/api/api.js:57-71 | a non-empty stored locale is returned as it is; otherwise the result is `pt-br` or `en`, and `pt-br` exactly when the browser language is a Portuguese tag; so it is `en` with no language; never empty |
| `Locale.StoredLocale` | src/shared/script/api/api.js:58 | the stored preference exists exactly when localStorage exists and holds the key `cv-online-locale`, and it is the string stored under that key |
| `Locale.SavedLocaleWins` | src/shared/script/api/api.js:58-62 | after a non-empty language is saved under `cv-online-locale`, it is the default locale whatever the browser language |
| `Api.PromisedPost` | src/shared/script/api/api.js:26-43 | a domain method over `post` sends its data to its endpoint and settles as its success callback decides, or with the normalised error |
| `Api.PromisedGet` | src/shared/script/api/api.js:7-24 | a domain method over `get` sends no body and settles as its success callback decides, or with the normalised error |
| `Api.Register` | src/shared/script/api/api.js:123-132 | posts to `auth/register`; rejects with `errors` exactly when it is a non-empty array or string, or an object with a truthy `length`; otherwise resolves with the body; a null body rejects with the unexpected-error message |
| `Api.ForgotPassPayload` | src/shared/script/api/api.js:138 | the payload always has `task`; a caller's `task` overrides `create`; every property of the caller's data is kept and nothing else is added |
| `Api.ForgotPass` | src/shared/script/api/api.js:134-143 | posts that payload to `account/forgotpassword` and resolves with the body, or rejects with the normalised error |
| `Api.SaveCv` | src/shared/script/api/api.js:145-155 | resolves with the body exactly when the body and its `saved` are truthy; otherwise rejects with the body's truthy `error`, or else the unexpected-error message, a null body included |
| `Api.ChangeAccount` | src/shared/script/api/api.js:179-210 | `changeUsername`/`changeUserEmail`/`changeUserPassword` post to their endpoints; resolve with the body exactly when `updated` is truthy; reject with `false` for a non-null body otherwise; a null body rejects with the unexpected-error message |
| `Api.ConfirmRegistration` | src/shared/script/api/api.js:237-246 | resolves with the body exactly when `ok` is truthy and `errors` is falsy; every other answer rejects with the unexpected-error message |
| `Api.GetCredentials` | src/shared/script/api/api.js:73-89 | for an object body: resolves with the same fields plus `lang`; a truthy `lang` is kept, a falsy or missing one becomes the default locale, so the resolved `lang` is always truthy; an array resolves as it is; any other body rejects with the unexpected-error message |
| `Api.ResetStepSettles` | src/shared/script/api/api.js:259-283 | a password-reset step resolves with the body exactly when `ok` is truthy; otherwise it rejects with the operation-failed message, or with the unexpected-error message for a null body |
| `Api.CheckResetPasswordHash` | src/shared/script/api/api.js:259-270 | overwrites the caller's `task` with `validate`, changes nothing else, posts that same object to `account/forgotpassword`, and settles as `ResetStepSettles` |
| `Api.ResetPassword` | src/shared/script/api/api.js:272-283 | overwrites the caller's `task` with `reset`, changes nothing else, posts that same object to `account/forgotpassword`, and settles as `ResetStepSettles` |
| `Api.AppState.ChangeAppLocale` | src/shared/script/api/api.js:317-337 | always sets the locale and `credentials.lang`. Logged out: saves the language under `cv-online-locale` if localStorage exists, leaves `curriculum.lang` alone, sends nothing and resolves. Logged in: sets `curriculum.lang`, leaves storage alone, posts `{lang}` to `account/changelanguage` and settles with that post |

## Left out

- The HTTP transport (`./httpClient.js`) is not part of this model. Its result is an input: a delivered response, or a failure with an optional response.
- Promise scheduling is left out. The `.then/.catch/.finally` chain becomes a sequential trace over one given outcome. Interleaving of concurrent calls is not modelled.
- The error callback is modelled as never throwing. In the source it is always `reject`, and a throw there would change nothing in the trace.
- `i18n.t` translation resources are left out. A translated message is represented by its key.
- `console.error` in `getError` is left out; it is logging only.
- Real `window.localStorage` and `navigator` access are left out. Their values are parameters, and localStorage is a map field of `AppState`.
- Vue store internals are left out. Only `credentials.lang` and `curriculum.lang` are modelled, as string fields. The model assumes both store objects exist. If one were null, the source would throw inside the promise executor.
- Methods that only forward `resolve`/`reject` are not modelled. They have no logic beyond an endpoint string: `getCurriculum`, `signInWithEmail`, `signInWithFacebook`, `unlockCv`, `sendEmailToUser`, `deactivateAccount`, `checkUsername`, `uploadFile`, `setUserAvatar`, `removeUserAvatar`, `reportCv` and `cvSearchSimple`.
- `signOut` is not modelled. It resolves on success and may redirect the browser through `window.location.href`, which is a side effect outside this model.
- Query strings (`getCurriculum`, `cvSearchSimple`) are built by plain interpolation without URL encoding. They are not modelled.
- Api.GetCredentials: for an array body, JavaScript attaches a named `lang` property to the array; the model resolves with the array as it is, because arrays here have no named properties.
- Api.CheckResetPasswordHash: only object payloads are modelled. Assigning `task` on a primitive or null payload throws before any request; an array payload would get a named property.
- Api.ResetPassword: only object payloads are modelled. Assigning `task` on a primitive or null payload throws before any request; an array payload would get a named property.
- Aliasing after a request is sent is not modelled. The posted body is the payload object as it is when `post` is called.
- JSON numbers are integers in the model. Only whether a number is zero matters to the core, and a fraction is non-zero like the integer it replaces.
- Object key order is not modelled. It does not affect any decision the core makes.
- Locale.DefaultLocale: lower-casing is modelled for the letters A to Z only. Full Unicode case mapping does not change the comparison with `pt`, because only `P` and `T` lower-case to `p` and `t`.
- Json.Spread: a string's keys are counted by Unicode characters, while JavaScript counts UTF-16 code units. The two agree outside the astral planes.
- Property reads are modelled for named keys and `length`. No key the core reads is an array index or a built-in prototype member.
