/** The domain methods of the API object that carry logic beyond an endpoint
    name: each issues one request and settles its promise from the response
    with its own success predicate. A call is modelled over the transport's
    outcome, given as a parameter. */
module Api {
  import opened Json
  import opened Dispatch
  import opened Locale

  /** The request a domain method issues and how its promise settles. */
  datatype Call = Call(request: Request, settled: Settlement)

  /** The promise's `resolve` passed directly as success callback. */
  function ResolveWith(v: JsValue): Completion
  {
    Returns(Resolve(v))
  }

  /** A domain method built on `post`. */
  function PromisedPost(endpoint: string, data: JsValue, onSuccess: JsValue -> Completion, o: Outcome): (c: Call)
    ensures c.request == Request(HttpPost, endpoint, data)
    ensures o.Failed? ==> c.settled == Rejected(GetError(o.failure))
    ensures o.Delivered? ==> c.settled == Answer(onSuccess(o.response.data))
  {
    var d := Promised(endpoint, data, onSuccess);
    PromisedSettles(endpoint, data, onSuccess, match o case Delivered(r) => Arrived(r.data) case Failed(f) => Refused(f));
    Call(Request(HttpPost, endpoint, data), Settle(PostTrace(d, o)))
  }

  /** A domain method built on `get`. */
  function PromisedGet(endpoint: string, onSuccess: Response -> Completion, o: Outcome): (c: Call)
    ensures c.request == Request(HttpGet, endpoint, None)
    ensures o.Failed? ==> c.settled == Rejected(GetError(o.failure))
    ensures o.Delivered? ==> c.settled == Answer(onSuccess(o.response))
  {
    var d := Promised(endpoint, None, onSuccess);
    PromisedSettles(endpoint, None, onSuccess, match o case Delivered(r) => Arrived(r) case Failed(f) => Refused(f));
    Call(Request(HttpGet, endpoint, None), Settle(GetTrace(d, o)))
  }

  // ---------------------------------------------------------------------
  // register

  /** `data.errors && data.errors.length ? reject(data.errors) : resolve(data)` */
  function RegisterOnSuccess(body: JsValue): Completion
  {
    if Nullish(body) then Throws(TypeError)
    else
      var errors := Prop(body, "errors");
      if Truthy(errors) && Truthy(Prop(errors, "length")) then Returns(Reject(Value(errors.value)))
      else Returns(Resolve(body))
  }

  /** The body's `errors` is present with a non-zero length: a non-empty
      array or string, or an object whose own `length` is truthy. */
  predicate ListsErrors(body: JsValue)
    requires !Nullish(body)
  {
    match Prop(body, "errors")
    case Some(Arr(items)) => items != []
    case Some(Str(s)) => s != ""
    case Some(Obj(m)) => "length" in m && Truthy(Some(m["length"]))
    case _ => false
  }

  /** `register`: rejects with `errors` exactly when the body lists errors,
      and otherwise resolves with the body. */
  function Register(data: JsValue, o: Outcome): (c: Call)
    ensures c.request == Request(HttpPost, "auth/register", data)
    ensures o.Failed? ==> c.settled == Rejected(GetError(o.failure))
    ensures o.Delivered? && Nullish(o.response.data) ==> c.settled == Rejected(Message(UnexpectedError))
    ensures o.Delivered? && !Nullish(o.response.data) ==>
      var body := o.response.data;
      c.settled == if ListsErrors(body) then Rejected(Value(Prop(body, "errors").value)) else Resolved(body)
  {
    PromisedPost("auth/register", data, RegisterOnSuccess, o)
  }

  // ---------------------------------------------------------------------
  // forgotPass

  /** `{ task: 'create', ...data }` */
  function ForgotPassPayload(data: JsValue): (p: map<string, Json>)
    ensures "task" in p
    ensures p["task"] == if data.Some? && data.value.Obj? && "task" in data.value.fields
                         then data.value.fields["task"] else Str("create")
    ensures forall k :: k in p <==> k == "task" || k in Spread(data)
    ensures forall k :: k in Spread(data) ==> p[k] == Spread(data)[k]
  {
    map["task" := Str("create")] + Spread(data)
  }

  /** `forgotPass`: posts the payload with `task` defaulting to "create" and
      resolves with the body. */
  function ForgotPass(data: JsValue, o: Outcome): (c: Call)
    ensures c.request == Request(HttpPost, "account/forgotpassword", Some(Obj(ForgotPassPayload(data))))
    ensures o.Failed? ==> c.settled == Rejected(GetError(o.failure))
    ensures o.Delivered? ==> c.settled == Resolved(o.response.data)
  {
    PromisedPost("account/forgotpassword", Some(Obj(ForgotPassPayload(data))), ResolveWith, o)
  }

  // ---------------------------------------------------------------------
  // saveCv

  /** `data && data.saved ? resolve(data) : reject(data.error || t('errors.unexpectedError'))` */
  function SaveCvOnSuccess(body: JsValue): Completion
  {
    if Truthy(body) && Truthy(Prop(body, "saved")) then Returns(Resolve(body))
    else if Nullish(body) then Throws(TypeError)
    else
      var error := Prop(body, "error");
      Returns(Reject(if Truthy(error) then Value(error.value) else Message(UnexpectedError)))
  }

  /** `saveCv`: resolves with the body exactly when the body and its `saved`
      are truthy; otherwise rejects with the body's truthy `error`, or with
      the unexpected-error message (also when the body is null, through the
      TypeError its handler throws). */
  function SaveCv(data: JsValue, o: Outcome): (c: Call)
    ensures c.request == Request(HttpPost, "/curriculum/save", data)
    ensures o.Failed? ==> c.settled == Rejected(GetError(o.failure))
    ensures o.Delivered? ==>
      var body := o.response.data;
      && (c.settled.Resolved? <==> Truthy(body) && Truthy(Prop(body, "saved")))
      && (c.settled.Resolved? ==> c.settled.value == body)
      && (!c.settled.Resolved? ==>
            c.settled == Rejected(if Truthy(body) && Truthy(Prop(body, "error"))
                                  then Value(Prop(body, "error").value) else Message(UnexpectedError)))
  {
    PromisedPost("/curriculum/save", data, SaveCvOnSuccess, o)
  }

  // ---------------------------------------------------------------------
  // changeUsername, changeUserEmail, changeUserPassword

  datatype AccountChange = Username | Email | Password

  function AccountEndpoint(k: AccountChange): string
  {
    match k
    case Username => "/account/changeusername"
    case Email => "/account/changeemail"
    case Password => "/account/changepassword"
  }

  /** `data.updated ? resolve(data) : reject(false)` */
  function UpdatedOnSuccess(body: JsValue): Completion
  {
    if Nullish(body) then Throws(TypeError)
    else if Truthy(Prop(body, "updated")) then Returns(Resolve(body))
    else Returns(Reject(Value(Bool(false))))
  }

  /** `changeUsername`, `changeUserEmail` and `changeUserPassword`: resolve
      with the body exactly when its `updated` is truthy; reject with `false`
      when it is not, and with the unexpected-error message when the body is
      null. */
  function ChangeAccount(k: AccountChange, data: JsValue, o: Outcome): (c: Call)
    ensures c.request == Request(HttpPost, AccountEndpoint(k), data)
    ensures o.Failed? ==> c.settled == Rejected(GetError(o.failure))
    ensures o.Delivered? ==>
      var body := o.response.data;
      && (c.settled.Resolved? <==> !Nullish(body) && Truthy(Prop(body, "updated")))
      && (c.settled.Resolved? ==> c.settled.value == body)
      && (!Nullish(body) && !Truthy(Prop(body, "updated")) ==> c.settled == Rejected(Value(Bool(false))))
      && (Nullish(body) ==> c.settled == Rejected(Message(UnexpectedError)))
  {
    PromisedPost(AccountEndpoint(k), data, UpdatedOnSuccess, o)
  }

  // ---------------------------------------------------------------------
  // confirmRegistration

  /** `data.ok && !data.errors ? resolve(data) : reject(t('errors.unexpectedError'))` */
  function ConfirmOnSuccess(body: JsValue): Completion
  {
    if Nullish(body) then Throws(TypeError)
    else if Truthy(Prop(body, "ok")) && !Truthy(Prop(body, "errors")) then Returns(Resolve(body))
    else Returns(Reject(Message(UnexpectedError)))
  }

  /** `confirmRegistration`: resolves with the body exactly when `ok` is
      truthy and `errors` is falsy; every other answer rejects with the
      unexpected-error message. */
  function ConfirmRegistration(data: JsValue, o: Outcome): (c: Call)
    ensures c.request == Request(HttpPost, "auth/confirm", data)
    ensures o.Failed? ==> c.settled == Rejected(GetError(o.failure))
    ensures o.Delivered? ==>
      var body := o.response.data;
      && (c.settled.Resolved? <==> !Nullish(body) && Truthy(Prop(body, "ok")) && !Truthy(Prop(body, "errors")))
      && (c.settled.Resolved? ==> c.settled.value == body)
      && (!c.settled.Resolved? ==> c.settled == Rejected(Message(UnexpectedError)))
  {
    PromisedPost("auth/confirm", data, ConfirmOnSuccess, o)
  }

  // ---------------------------------------------------------------------
  // getCredentials

  /** The success callback of `getCredentials`: when the body's `lang` is
      falsy it is set to the default locale before resolving. In strict mode
      setting a property of a primitive throws a TypeError. */
  function CredentialsOnSuccess(stored: Option<string>, language: Option<string>, response: Response): Completion
  {
    var credentials := response.data;
    if Nullish(credentials) then Throws(TypeError)
    else if Truthy(Prop(credentials, "lang")) then Returns(Resolve(credentials))
    else
      match credentials.value
      case Obj(m) => Returns(Resolve(Some(Obj(m["lang" := Str(DefaultLocale(stored, language))]))))
      case Arr(_) => Returns(Resolve(credentials))
      case _ => Throws(TypeError)
  }

  /** `getCredentials`: resolves with the credentials object, its falsy
      `lang` back-filled with the default locale and everything else kept;
      a truthy `lang` is kept as it is. A body that is not an object or an
      array rejects with the unexpected-error message. `stored` and
      `language` are what `getDefaultLocale` would read. */
  function GetCredentials(stored: Option<string>, language: Option<string>, o: Outcome): (c: Call)
    ensures c.request == Request(HttpGet, "/account/getcredentials", None)
    ensures o.Failed? ==> c.settled == Rejected(GetError(o.failure))
    ensures o.Delivered? && o.response.data.Some? && o.response.data.value.Obj? ==>
      var m := o.response.data.value.fields;
      && c.settled.Resolved? && c.settled.value.Some? && c.settled.value.value.Obj?
      && var m' := c.settled.value.value.fields;
      && m'.Keys == m.Keys + {"lang"}
      && (forall key :: key in m && key != "lang" ==> m'[key] == m[key])
      && Truthy(Some(m'["lang"]))
      && ("lang" in m && Truthy(Some(m["lang"])) ==> m' == m)
      && (!("lang" in m && Truthy(Some(m["lang"]))) ==> m'["lang"] == Str(DefaultLocale(stored, language)))
    ensures o.Delivered? && o.response.data.Some? && o.response.data.value.Arr? ==>
      c.settled == Resolved(o.response.data)
    ensures o.Delivered? && !(o.response.data.Some? && (o.response.data.value.Obj? || o.response.data.value.Arr?)) ==>
      c.settled == Rejected(Message(UnexpectedError))
  {
    PromisedGet("/account/getcredentials", r => CredentialsOnSuccess(stored, language, r), o)
  }

  // ---------------------------------------------------------------------
  // checkResetPasswordHash, resetPassword

  /** A caller's payload object, which the password-reset steps change in place. */
  class Payload {
    var fields: map<string, Json>

    constructor (fields: map<string, Json>)
      ensures this.fields == fields
    {
      this.fields := fields;
    }
  }

  /** `data.ok ? resolve(data) : reject(t('errors.operationFailed'))` */
  function OkOnSuccess(body: JsValue): Completion
  {
    if Nullish(body) then Throws(TypeError)
    else if Truthy(Prop(body, "ok")) then Returns(Resolve(body))
    else Returns(Reject(Message(OperationFailed)))
  }

  /** How a password-reset step settles: with the body when `ok` is truthy,
      with the operation-failed message when it is not, and with the
      unexpected-error message when the body is null. */
  function ResetStepSettles(o: Outcome): (s: Settlement)
    ensures o.Failed? ==> s == Rejected(GetError(o.failure))
    ensures o.Delivered? ==>
      var body := o.response.data;
      && (s.Resolved? <==> !Nullish(body) && Truthy(Prop(body, "ok")))
      && (s.Resolved? ==> s.value == body)
      && (!Nullish(body) && !Truthy(Prop(body, "ok")) ==> s == Rejected(Message(OperationFailed)))
      && (Nullish(body) ==> s == Rejected(Message(UnexpectedError)))
  {
    match o
    case Failed(f) => Rejected(GetError(f))
    case Delivered(r) => Answer(OkOnSuccess(r.data))
  }

  /** Overwrites the caller's `task` with `task`, then posts the object. */
  method ResetStep(data: Payload, task: string, o: Outcome) returns (sent: Request, settled: Settlement)
    modifies data
    ensures data.fields == old(data.fields)["task" := Str(task)]
    ensures sent == Request(HttpPost, "account/forgotpassword", Some(Obj(data.fields)))
    ensures settled == ResetStepSettles(o)
  {
    data.fields := data.fields["task" := Str(task)];
    var d := Promised("account/forgotpassword", Some(Obj(data.fields)), OkOnSuccess);
    var trace;
    sent, trace, settled := Post(d, o);
    PromisedSettles("account/forgotpassword", Some(Obj(data.fields)), OkOnSuccess,
                    match o case Delivered(r) => Arrived(r.data) case Failed(f) => Refused(f));
  }

  /** `checkResetPasswordHash`: sets the caller's `task` to "validate". */
  method CheckResetPasswordHash(data: Payload, o: Outcome) returns (sent: Request, settled: Settlement)
    modifies data
    ensures data.fields == old(data.fields)["task" := Str("validate")]
    ensures sent == Request(HttpPost, "account/forgotpassword", Some(Obj(data.fields)))
    ensures settled == ResetStepSettles(o)
  {
    sent, settled := ResetStep(data, "validate", o);
  }

  /** `resetPassword`: sets the caller's `task` to "reset". */
  method ResetPassword(data: Payload, o: Outcome) returns (sent: Request, settled: Settlement)
    modifies data
    ensures data.fields == old(data.fields)["task" := Str("reset")]
    ensures sent == Request(HttpPost, "account/forgotpassword", Some(Obj(data.fields)))
    ensures settled == ResetStepSettles(o)
  {
    sent, settled := ResetStep(data, "reset", o);
  }

  // ---------------------------------------------------------------------
  // changeAppLocale

  /** The application state `changeAppLocale` writes. */
  class AppState {
    /** `i18n.locale` */
    var locale: string
    /** `store.state.credentials.lang` */
    var credentialsLang: string
    /** `store.state.curriculum.lang` */
    var curriculumLang: string
    /** `window.localStorage`; `None` when the browser has none. */
    var storage: Option<map<string, string>>

    constructor (locale: string, credentialsLang: string, curriculumLang: string, storage: Option<map<string, string>>)
      ensures this.locale == locale && this.credentialsLang == credentialsLang
      ensures this.curriculumLang == curriculumLang && this.storage == storage
    {
      this.locale := locale;
      this.credentialsLang := credentialsLang;
      this.curriculumLang := curriculumLang;
      this.storage := storage;
    }

    /** `changeAppLocale(lang, logged)`. Logged out, the language is saved in
        localStorage and the promise resolves at once, with no request;
        logged in, the curriculum's language is set too and the choice is
        posted, and the promise settles with that post. */
    method ChangeAppLocale(lang: string, logged: bool, o: Outcome) returns (sent: Option<Request>, settled: Settlement)
      modifies this
      ensures locale == lang && credentialsLang == lang
      ensures !logged ==>
        && sent == None
        && settled == Resolved(None)
        && curriculumLang == old(curriculumLang)
        && storage == (if old(storage).Some? then Some(old(storage).value[StorageKey := lang]) else None)
      ensures logged ==>
        && sent == Some(Request(HttpPost, "account/changelanguage", Some(Obj(map["lang" := Str(lang)]))))
        && settled == (match o case Delivered(r) => Resolved(r.data) case Failed(f) => Rejected(GetError(f)))
        && curriculumLang == lang
        && storage == old(storage)
      ensures !logged && old(storage).Some? ==> StoredLocale(storage) == Some(lang)
    {
      locale := lang;
      credentialsLang := lang;
      if !logged {
        if storage.Some? {
          storage := Some(storage.value[StorageKey := lang]);
        }
        sent, settled := None, Resolved(None);
      } else {
        curriculumLang := lang;
        var body := Some(Obj(map["lang" := Str(lang)]));
        var d := Promised("account/changelanguage", body, ResolveWith);
        var request, trace;
        request, trace, settled := Post(d, o);
        PromisedSettles("account/changelanguage", body, ResolveWith,
                        match o case Delivered(r) => Arrived(r.data) case Failed(f) => Refused(f));
        sent := Some(request);
      }
    }
  }
}
