/** The request dispatcher: `get` and `post` hand the transport's answer to
    the optional `success`, `error` and `finally` callbacks, normalising
    failures with `getError`. The promise chain is reduced to the ordered
    trace of callbacks it runs over a given transport outcome. */
module Dispatch {
  import opened Json

  /** The translated messages the core uses; `t(key)` is represented by its key. */
  datatype MessageKey = UnexpectedError | OperationFailed

  /** What a promise is rejected with: a value taken from a response body, or
      a translated message. A transport exception object is not a Reason. */
  datatype Reason = Value(v: Json) | Message(key: MessageKey)

  /** A transport response; only its `data` (the parsed body) is read. */
  datatype Response = Response(data: JsValue)

  /** The object a `.catch` handler receives: a transport error carrying an
      optional response, or (with no response) the TypeError a success
      callback throws when it reads a property of `null` or `undefined`. */
  datatype Failure = Failure(response: Option<Response>)

  const TypeError: Failure := Failure(None)

  /** How the transport settled one request. */
  datatype Outcome = Delivered(response: Response) | Failed(failure: Failure)

  datatype Verb = HttpGet | HttpPost

  /** The request handed to the transport. */
  datatype Request = Request(verb: Verb, endpoint: string, body: JsValue)

  /** What a callback does to the promise of the domain method around it. */
  datatype Action = Resolve(value: JsValue) | Reject(reason: Reason)

  /** How a success callback ended: it returned after settling, or it threw. */
  datatype Completion = Returns(action: Action) | Throws(exception: Failure)

  datatype Settlement = Pending | Resolved(value: JsValue) | Rejected(reason: Reason)

  /** The `p` argument of `get`/`post`. `A` is what `success` receives. */
  datatype Descriptor<-A> = Descriptor(
    endpoint: string,
    data: JsValue,
    success: Option<A -> Completion>,
    error: Option<Reason -> Action>,
    onFinally: bool)

  /** What reached the `.then`/`.catch` pair of the chain. */
  datatype Arrival<A> = Arrived(arg: A) | Refused(failure: Failure)

  /** One callback run, with what it did. */
  datatype Event<A> =
    | SuccessCalled(arg: A, completion: Completion)
    | ErrorCalled(reason: Reason, action: Action)
    | FinallyCalled

  // ---------------------------------------------------------------------
  // Error normalisation

  predicate HasBody(obj: Failure)
  {
    obj.response.Some? && Truthy(obj.response.value.data)
  }

  /** `getError`: the first truthy of the body's `errors`, `message` and
      `error`, else the body itself; with no response or a falsy body, the
      translated unexpected-error message. */
  function GetError(obj: Failure): (r: Reason)
    ensures r.Message? <==> !HasBody(obj)
    ensures r.Message? ==> r.key == UnexpectedError
    ensures r.Value? ==> Truthy(Some(r.v))
    ensures HasBody(obj) ==>
      var body := obj.response.value.data;
      var errors, message, error := Prop(body, "errors"), Prop(body, "message"), Prop(body, "error");
      && (Truthy(errors) ==> r == Value(errors.value))
      && (!Truthy(errors) && Truthy(message) ==> r == Value(message.value))
      && (!Truthy(errors) && !Truthy(message) && Truthy(error) ==> r == Value(error.value))
      && (!Truthy(errors) && !Truthy(message) && !Truthy(error) ==> r == Value(body.value))
  {
    if HasBody(obj) then
      var body := obj.response.value.data;
      var picked := Or(Prop(body, "errors"), Or(Prop(body, "message"), Or(Prop(body, "error"), body)));
      Value(picked.value)
    else
      Message(UnexpectedError)
  }

  /** An empty `errors` array is truthy, so it is what `getError` returns,
      however informative `message` or `error` are. */
  lemma EmptyErrorListWins(fields: map<string, Json>)
    requires "errors" in fields && fields["errors"] == Arr([])
    ensures GetError(Failure(Some(Response(Some(Obj(fields)))))) == Value(Arr([]))
  {
  }

  // ---------------------------------------------------------------------
  // The callback trace

  /** The error callback's run on a failure, when there is an error callback. */
  function Catch<A>(d: Descriptor<A>, f: Failure): seq<Event<A>>
  {
    if d.error.None? then []
    else
      var reason := GetError(f);
      [ErrorCalled(reason, d.error.value(reason))]
  }

  /** The callbacks `.then(success).catch(error).finally(finally)` runs, in order. */
  function Chain<A>(d: Descriptor<A>, arrival: Arrival<A>): seq<Event<A>>
  {
    var handled :=
      match arrival
      case Arrived(a) =>
        if d.success.None? then []
        else
          var c := d.success.value(a);
          [SuccessCalled(a, c)] + (if c.Throws? then Catch(d, c.exception) else [])
      case Refused(f) => Catch(d, f);
    handled + (if d.onFinally then [FinallyCalled] else [])
  }

  /** `get` hands `success` the whole response. */
  function GetTrace(d: Descriptor<Response>, o: Outcome): (t: seq<Event<Response>>)
    ensures o.Delivered? && d.success.Some? ==>
      |t| > 0 && t[0] == SuccessCalled(o.response, d.success.value(o.response))
  {
    Chain(d, match o case Delivered(r) => Arrived(r) case Failed(f) => Refused(f))
  }

  /** `post` hands `success` only the response's `data`. */
  function PostTrace(d: Descriptor<JsValue>, o: Outcome): (t: seq<Event<JsValue>>)
    ensures o.Delivered? && d.success.Some? ==>
      |t| > 0 && t[0] == SuccessCalled(o.response.data, d.success.value(o.response.data))
  {
    Chain(d, match o case Delivered(r) => Arrived(r.data) case Failed(f) => Refused(f))
  }

  predicate SuccessThrew<A>(d: Descriptor<A>, arrival: Arrival<A>)
  {
    arrival.Arrived? && d.success.Some? && d.success.value(arrival.arg).Throws?
  }

  datatype Kind = SuccessKind | ErrorKind | FinallyKind

  function KindOf<A>(e: Event<A>): Kind
  {
    match e
    case SuccessCalled(_, _) => SuccessKind
    case ErrorCalled(_, _) => ErrorKind
    case FinallyCalled => FinallyKind
  }

  /** How many runs of one kind of callback a trace holds. */
  function Count<A>(t: seq<Event<A>>, k: Kind): nat
  {
    if t == [] then 0 else (if KindOf(t[0]) == k then 1 else 0) + Count(t[1..], k)
  }

  lemma {:induction false} CountAppend<A>(t: seq<Event<A>>, u: seq<Event<A>>, k: Kind)
    ensures Count(t + u, k) == Count(t, k) + Count(u, k)
  {
    if t == [] {
      assert t + u == u;
    } else {
      CountAppend(t[1..], u, k);
      assert (t + u)[1..] == t[1..] + u;
    }
  }

  lemma CountOne<A>(e: Event<A>, k: Kind)
    ensures Count([e], k) == if KindOf(e) == k then 1 else 0
  {
  }

  /** How many times a chain runs each kind of callback. */
  function Expected<A>(d: Descriptor<A>, arrival: Arrival<A>, k: Kind): nat
  {
    match k
    case SuccessKind => if arrival.Arrived? && d.success.Some? then 1 else 0
    case ErrorKind => if d.error.Some? && (arrival.Refused? || SuccessThrew(d, arrival)) then 1 else 0
    case FinallyKind => if d.onFinally then 1 else 0
  }

  lemma {:induction false} CountKind<A>(d: Descriptor<A>, arrival: Arrival<A>, k: Kind)
    ensures Count(Chain(d, arrival), k) == Expected(d, arrival, k)
  {
    var handled :=
      match arrival
      case Arrived(a) =>
        if d.success.None? then []
        else
          var c := d.success.value(a);
          [SuccessCalled(a, c)] + (if c.Throws? then Catch(d, c.exception) else [])
      case Refused(f) => Catch(d, f);
    var fin: seq<Event<A>> := if d.onFinally then [FinallyCalled] else [];
    assert Chain(d, arrival) == handled + fin;
    CountAppend(handled, fin, k);
    if d.onFinally { CountOne<A>(FinallyCalled, k); }
    match arrival
    case Refused(f) =>
      if d.error.Some? { CountOne(handled[0], k); }
    case Arrived(a) =>
      if d.success.Some? {
        var c := d.success.value(a);
        var caught := if c.Throws? then Catch(d, c.exception) else [];
        assert handled == [SuccessCalled(a, c)] + caught;
        CountAppend([SuccessCalled(a, c)], caught, k);
        CountOne(SuccessCalled(a, c), k);
        if caught != [] { CountOne(caught[0], k); }
      }
  }

  /** The order `get` and `post` promise: `success` runs once when the
      transport answered and it is present; `error` runs once when the
      transport failed, or when `success` threw, and it is present; absent
      callbacks are skipped; `finally`, when present, runs exactly once and
      last. Both `success` and `error` run only when `success` threw. */
  lemma {:induction false} CallbackOrder<A>(d: Descriptor<A>, arrival: Arrival<A>)
    ensures var t := Chain(d, arrival);
      && Count(t, SuccessKind) == (if arrival.Arrived? && d.success.Some? then 1 else 0)
      && Count(t, ErrorKind) == (if d.error.Some? && (arrival.Refused? || SuccessThrew(d, arrival)) then 1 else 0)
      && Count(t, FinallyKind) == (if d.onFinally then 1 else 0)
      && (d.onFinally ==> t[|t| - 1] == FinallyCalled)
      && (Count(t, SuccessKind) == 1 ==> t[0].SuccessCalled?)
  {
    CountKind(d, arrival, SuccessKind);
    CountKind(d, arrival, ErrorKind);
    CountKind(d, arrival, FinallyKind);
  }

  /** The error callback receives the normalised error of whatever reached
      the `.catch`: the transport failure, or what `success` threw. */
  lemma ErrorGetsNormalised<A>(d: Descriptor<A>, arrival: Arrival<A>)
    requires d.error.Some?
    ensures arrival.Refused? ==>
      Chain(d, arrival)[0] == ErrorCalled(GetError(arrival.failure), d.error.value(GetError(arrival.failure)))
    ensures SuccessThrew(d, arrival) ==>
      var ex := d.success.value(arrival.arg).exception;
      Chain(d, arrival)[1] == ErrorCalled(GetError(ex), d.error.value(GetError(ex)))
  {
  }

  // ---------------------------------------------------------------------
  // The promise of a domain method

  function Of(a: Action): Settlement
  {
    match a
    case Resolve(v) => Resolved(v)
    case Reject(r) => Rejected(r)
  }

  /** One callback run applied to the promise: only the first settling counts. */
  function Step<A>(s: Settlement, e: Event<A>): Settlement
  {
    if !s.Pending? then s
    else
      match e
      case SuccessCalled(_, Returns(a)) => Of(a)
      case SuccessCalled(_, Throws(_)) => Pending
      case ErrorCalled(_, a) => Of(a)
      case FinallyCalled => Pending
  }

  /** The state of the promise after a trace of callback runs. */
  function Settle<A>(t: seq<Event<A>>): Settlement
  {
    if t == [] then Pending else Step(Settle(t[..|t| - 1]), t[|t| - 1])
  }

  lemma SettleSnoc<A>(t: seq<Event<A>>, e: Event<A>)
    ensures Settle(t + [e]) == Step(Settle(t), e)
  {
  }

  function RejectWith(r: Reason): Action
  {
    Reject(r)
  }

  /** The descriptor every domain method builds: its own success callback,
      the promise's `reject` as error callback, and no `finally`. */
  function Promised<A>(endpoint: string, data: JsValue, onSuccess: A -> Completion): Descriptor<A>
  {
    Descriptor(endpoint, data, Some(onSuccess), Some(RejectWith), false)
  }

  /** What a promise becomes when its success callback ends as `c`. */
  function Answer(c: Completion): Settlement
  {
    match c
    case Returns(a) => Of(a)
    case Throws(ex) => Rejected(GetError(ex))
  }

  /** A domain method's promise rejects with the normalised error when the
      transport fails or its success callback throws, and otherwise settles
      as its success callback says. */
  lemma {:induction false} PromisedSettles<A>(endpoint: string, data: JsValue, onSuccess: A -> Completion, arrival: Arrival<A>)
    ensures Settle(Chain(Promised(endpoint, data, onSuccess), arrival)) ==
      match arrival
      case Refused(f) => Rejected(GetError(f))
      case Arrived(a) => Answer(onSuccess(a))
  {
    var d := Promised(endpoint, data, onSuccess);
    var t := Chain(d, arrival);
    match arrival
    case Refused(f) =>
      assert t == [ErrorCalled(GetError(f), Reject(GetError(f)))];
      SettleSnoc([], t[0]);
    case Arrived(a) =>
      var c := onSuccess(a);
      var first := SuccessCalled(a, c);
      SettleSnoc([], first);
      assert [] + [first] == [first];
      if c.Throws? {
        var second := ErrorCalled(GetError(c.exception), Reject(GetError(c.exception)));
        assert t == [first] + [second];
        SettleSnoc([first], second);
      } else {
        assert t == [first];
      }
  }

  // ---------------------------------------------------------------------
  // The dispatcher, step by step

  /** Runs the chain's callbacks in order, recording each run and applying
      what it does to the promise. */
  method Run<A>(d: Descriptor<A>, arrival: Arrival<A>) returns (trace: seq<Event<A>>, settled: Settlement)
    ensures trace == Chain(d, arrival)
    ensures settled == Settle(trace)
  {
    trace, settled := [], Pending;
    var caught: Option<Failure> := None;
    match arrival {
      case Arrived(a) =>
        if d.success.Some? {
          var c := d.success.value(a);
          var e := SuccessCalled(a, c);
          SettleSnoc(trace, e);
          trace, settled := trace + [e], Step(settled, e);
          if c.Throws? {
            caught := Some(c.exception);
          }
        }
      case Refused(f) =>
        caught := Some(f);
    }
    if caught.Some? && d.error.Some? {
      var reason := GetError(caught.value);
      var e := ErrorCalled(reason, d.error.value(reason));
      SettleSnoc(trace, e);
      trace, settled := trace + [e], Step(settled, e);
    }
    if d.onFinally {
      var e: Event<A> := FinallyCalled;
      SettleSnoc(trace, e);
      trace, settled := trace + [e], Step(settled, e);
    }
  }

  /** `get`: a GET of the endpoint, then the callbacks over the whole response. */
  method Get(d: Descriptor<Response>, o: Outcome) returns (sent: Request, trace: seq<Event<Response>>, settled: Settlement)
    ensures sent == Request(HttpGet, d.endpoint, None)
    ensures trace == GetTrace(d, o)
    ensures settled == Settle(trace)
  {
    sent := Request(HttpGet, d.endpoint, None);
    var arrival := match o case Delivered(r) => Arrived(r) case Failed(f) => Refused(f);
    trace, settled := Run(d, arrival);
  }

  /** `post`: a POST of `data` to the endpoint, then the callbacks over the
      response's `data`. */
  method Post(d: Descriptor<JsValue>, o: Outcome) returns (sent: Request, trace: seq<Event<JsValue>>, settled: Settlement)
    ensures sent == Request(HttpPost, d.endpoint, d.data)
    ensures trace == PostTrace(d, o)
    ensures settled == Settle(trace)
  {
    sent := Request(HttpPost, d.endpoint, d.data);
    var arrival := match o case Delivered(r) => Arrived(r.data) case Failed(f) => Refused(f);
    trace, settled := Run(d, arrival);
  }
}
