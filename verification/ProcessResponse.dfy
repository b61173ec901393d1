/** The common treatment of HTTP responses: one of two handlers is called, and whatever goes wrong on
    the way ends in the error handler. */
module ProcessResponse {
  import opened Wrappers
  import opened Mailbox
  import opened Portfolio

  datatype Category = UNKNOWN | INFORMATIONAL_RESPONSE | SUCCESS | REDIRECTION | CLIENT_ERROR | SERVER_ERROR

  datatype Origin = GATEWAY | EXCHANGE
  datatype RequestStatus = ACCEPTED | REJECTED | ERROR | OTHER_STATUS(name: string)

  /** What an error handler is told. */
  datatype ErrorInfo = ErrorInfo(origin: Origin, status: RequestStatus, error: string, text: string)

  datatype Exception =
    | OmsException(info: ErrorInfo)
    | NetworkError(status: RequestStatus, error: string, what: string)
    | OtherException(what: string)

  /** Asking for the result of a request may itself throw, for instance on a timeout. */
  datatype Response = NoResult(exception: Exception) | Result(status: nat, category: Category, body: string)

  /** Generated and closed code as parameters: parsing an error body, translating its code, printing a
      status, and the exception raised for a status other than OK; and one setting. */
  datatype Environment = Environment(
    parseError: string -> Wrappers.Result<(int, string), Exception>,
    guessError: int -> string,
    statusText: nat -> string,
    expectOk: nat -> Exception,
    terminateOn403: bool)

  /** How a piece of code ends: normally, with an exception that leaves it, or together with the process. */
  datatype Flow<S> = Returned(state: S) | Threw(state: S, exception: Exception) | Terminated

  const FORBIDDEN := 403
  const I_AM_A_TEAPOT := 418
  const TOO_MANY_REQUESTS := 429

  function Translate(e: Exception): ErrorInfo {
    match e
    case OmsException(info) => info
    case NetworkError(status, error, what) => ErrorInfo(GATEWAY, status, error, what)
    case OtherException(what) => ErrorInfo(EXCHANGE, ERROR, "UNKNOWN", what)
  }

  /** The part of the treatment whose exceptions are caught. */
  function Guarded<S>(env: Environment, s: S, response: Response, onError: (S, ErrorInfo) -> Flow<S>, onSuccess: (S, string) -> Flow<S>): Flow<S> {
    match response
    case NoResult(exception) => Threw(s, exception)
    case Result(status, category, body) =>
      match category
      case UNKNOWN => Threw(s, env.expectOk(status))
      case INFORMATIONAL_RESPONSE => Threw(s, env.expectOk(status))
      case SUCCESS => onSuccess(s, body)
      case REDIRECTION => Terminated
      case CLIENT_ERROR =>
        if status == FORBIDDEN && env.terminateOn403 then Terminated
        else if status in {FORBIDDEN, I_AM_A_TEAPOT, TOO_MANY_REQUESTS} then
          onError(s, ErrorInfo(EXCHANGE, REJECTED, "REQUEST_RATE_LIMIT_REACHED", env.statusText(status)))
        else
          match env.parseError(body) {
            case Success(e) => onError(s, ErrorInfo(EXCHANGE, REJECTED, env.guessError(e.0), e.1))
            case Failure(exception) => Threw(s, exception)
          }
      case SERVER_ERROR => onError(s, ErrorInfo(EXCHANGE, REJECTED, "UNKNOWN", env.statusText(status)))
  }

  /** The error handler is called again for an exception, also for one of its own; what it throws then
      leaves the treatment. */
  function Process<S>(env: Environment, s: S, response: Response, onError: (S, ErrorInfo) -> Flow<S>, onSuccess: (S, string) -> Flow<S>): Flow<S> {
    match Guarded(env, s, response, onError, onSuccess)
    case Threw(s', exception) => onError(s', Translate(exception))
    case flow => flow
  }

  /** The responses that end the process. */
  predicate IsFatal(env: Environment, response: Response) {
    && response.Result?
    && (response.category == REDIRECTION || (response.category == CLIENT_ERROR && response.status == FORBIDDEN && env.terminateOn403))
  }

  predicate IsSuccess(response: Response) {
    response.Result? && response.category == SUCCESS
  }

  /** What the error handler is told inside the guarded part, if it is called there. */
  function Reported(env: Environment, response: Response): Option<ErrorInfo> {
    if response.NoResult? then None
    else if response.category == SERVER_ERROR then
      Some(ErrorInfo(EXCHANGE, REJECTED, "UNKNOWN", env.statusText(response.status)))
    else if response.category != CLIENT_ERROR then None
    else if response.status in {FORBIDDEN, I_AM_A_TEAPOT, TOO_MANY_REQUESTS} then
      Some(ErrorInfo(EXCHANGE, REJECTED, "REQUEST_RATE_LIMIT_REACHED", env.statusText(response.status)))
    else match env.parseError(response.body)
      case Success(e) => Some(ErrorInfo(EXCHANGE, REJECTED, env.guessError(e.0), e.1))
      case Failure(_) => None
  }

  /** The exception that ends the guarded part before any handler has been called. */
  function Raised(env: Environment, response: Response): Exception
    requires !IsFatal(env, response) && !IsSuccess(response) && Reported(env, response).None?
  {
    if response.NoResult? then response.exception
    else if response.category == CLIENT_ERROR then env.parseError(response.body).error
    else env.expectOk(response.status)
  }

  // --- which handlers run

  datatype Handled = OnSuccess(body: string) | OnError(info: ErrorInfo)

  /** Handlers that keep a journal; `throws` tells how a handler ends, given the journal with its call. */
  function Journal(env: Environment, response: Response, throws: seq<Handled> -> Option<Exception>): Flow<seq<Handled>> {
    Process(env, [], response,
            (log: seq<Handled>, info: ErrorInfo) => Note(log + [OnError(info)], throws),
            (log: seq<Handled>, body: string) => Note(log + [OnSuccess(body)], throws))
  }

  function Note(log: seq<Handled>, throws: seq<Handled> -> Option<Exception>): Flow<seq<Handled>> {
    if throws(log).None? then Returned(log) else Threw(log, throws(log).value)
  }

  /** The handler that is called inside the guarded part. */
  function FirstHandler(env: Environment, response: Response): Option<Handled> {
    if IsSuccess(response) then Some(OnSuccess(response.body))
    else match Reported(env, response)
      case Some(info) => Some(OnError(info))
      case None => None
  }

  /** The success handler runs exactly on a success, once and first. If the handler that is called first
      throws, success or error, the error handler is called for its exception; if no handler is called, it
      is called for the exception that prevented that. So there is no call but these, and an exception
      leaves if and only if that last call of the error handler throws. */
  lemma HandlersRun(env: Environment, response: Response, throws: seq<Handled> -> Option<Exception>)
    ensures var flow := Journal(env, response, throws);
            if IsFatal(env, response) then flow == Terminated
            else
              match FirstHandler(env, response) {
                case None => flow == Note([OnError(Translate(Raised(env, response)))], throws)
                case Some(first) =>
                  if throws([first]).None? then flow == Returned([first])
                  else flow == Note([first, OnError(Translate(throws([first]).value))], throws)
              }
  {
    hide Note;
    var first := FirstHandler(env, response);
    if first.Some? {
      assert [] + [first.value] == [first.value];
      assert Note([first.value], throws) == (if throws([first.value]).None? then Returned([first.value]) else Threw([first.value], throws([first.value]).value)) by {
        NoteIs([first.value], throws);
      }
      forall e: Exception
        ensures [first.value] + [OnError(Translate(e))] == [first.value, OnError(Translate(e))]
      {
      }
    } else if !IsFatal(env, response) {
      var e := Raised(env, response);
      assert [] + [OnError(Translate(e))] == [OnError(Translate(e))];
    }
  }

  lemma NoteIs(log: seq<Handled>, throws: seq<Handled> -> Option<Exception>)
    ensures Note(log, throws) == if throws(log).None? then Returned(log) else Threw(log, throws(log).value)
  {
  }

  /** What the error handler is told about an exception that comes before any handler has run: its own
      origin, status and text if it is one of the order-management system, the gateway as origin if it is
      one of the network, and an unknown error of the exchange otherwise. */
  lemma FirstTold(env: Environment, response: Response, throws: seq<Handled> -> Option<Exception>)
    requires !IsFatal(env, response) && FirstHandler(env, response).None?
    ensures var flow := Journal(env, response, throws);
            && !flow.Terminated? && |flow.state| == 1
            && match Raised(env, response)
               case OmsException(info) => flow.state[0] == OnError(info)
               case NetworkError(status, error, what) => flow.state[0] == OnError(ErrorInfo(GATEWAY, status, error, what))
               case OtherException(what) => flow.state[0] == OnError(ErrorInfo(EXCHANGE, ERROR, "UNKNOWN", what))
  {
    HandlersRun(env, response, throws);
    hide Journal;
  }

  /** The same for an exception of the handler that ran first. */
  lemma SecondTold(env: Environment, response: Response, throws: seq<Handled> -> Option<Exception>)
    requires !IsFatal(env, response) && FirstHandler(env, response).Some?
    ensures var flow, first := Journal(env, response, throws), FirstHandler(env, response).value;
            && !flow.Terminated? && |flow.state| > 0 && flow.state[0] == first
            && match throws([first])
               case None => |flow.state| == 1
               case Some(OmsException(info)) => flow.state == [first, OnError(info)]
               case Some(NetworkError(status, error, what)) => flow.state == [first, OnError(ErrorInfo(GATEWAY, status, error, what))]
               case Some(OtherException(what)) => flow.state == [first, OnError(ErrorInfo(EXCHANGE, ERROR, "UNKNOWN", what))]
  {
    HandlersRun(env, response, throws);
    hide Journal;
  }

  // --- downloads

  /** The order-entry stream with its mailbox, while the callback of the i-th request runs. */
  datatype Session = Session(mail: Mail, worker: Worker)

  /** The flag is down, the response stamp is the time of the callback, and nothing else has changed. */
  function CompleteDownload(s: Session, kind: Kind, now: int): (t: Session)
    ensures !t.worker.flags.Has(kind) && t.mail.At(kind) == s.mail.At(kind).(respond := now)
    ensures forall k :: k != kind ==> t.mail.At(k) == s.mail.At(k) && (t.worker.flags.Has(k) <==> s.worker.flags.Has(k))
    ensures t.worker.(flags := s.worker.flags) == s.worker
  {
    Session(s.mail.Answer(kind, now), s.worker.(flags := s.worker.flags.Clear(kind)))
  }

  /** The callback of a download. `parses` tells whether a success body can be read and dispatched.
      Every response that does not end the process completes the download. */
  function DownloadAck(env: Environment, s: Session, kind: Kind, response: Response, parses: string -> Option<Exception>, now: int): (flow: Flow<Session>)
    ensures flow == if IsFatal(env, response) then Terminated else Returned(CompleteDownload(s, kind, now))
  {
    Process(env, s, response,
            (t: Session, info: ErrorInfo) => Returned(CompleteDownload(t, kind, now)),
            (t: Session, body: string) => match parses(body)
                         case None => Returned(CompleteDownload(t, kind, now))
                         case Some(e) => Threw(t, e))
  }

  /** Whatever the response, the callback is the acknowledgement step of the mailbox. */
  lemma DownloadAckIsWorkerAck(env: Environment, s: Session, i: nat, response: Response, parses: string -> Option<Exception>, now: int)
    requires i < |s.worker.inFlight| && !IsFatal(env, response)
    ensures var kind := s.worker.inFlight[i].kind;
            var after := DownloadAck(env, s, kind, response, parses, now).state;
            && after.mail == s.mail.Answer(kind, now)
            && after.worker.(inFlight := Remove(s.worker.inFlight, i), acks := s.worker.acks + [Ack(kind, s.worker.inFlight[i].issued, now)])
               == WorkerAck(s.worker, i, now)
  {
  }

  // --- orders

  /** A response to the order-management system. */
  datatype OmsResponse = OmsResponse(origin: Origin, status: RequestStatus, error: string, userId: int, orderId: int, version: int)

  datatype OrderRef = OrderRef(userId: int, orderId: int, version: int)

  function Accepted(order: OrderRef): OmsResponse {
    OmsResponse(EXCHANGE, ACCEPTED, "", order.userId, order.orderId, order.version)
  }

  function Refused(order: OrderRef, info: ErrorInfo): OmsResponse {
    OmsResponse(info.origin, info.status, info.error, order.userId, order.orderId, order.version)
  }

  /** Both handlers of an order dispatch to the same dispatcher. It may throw after it has seen a
      response, depending on all it has seen. */
  type Dispatcher = seq<OmsResponse> -> Option<Exception>

  function Dispatch(out: seq<OmsResponse>, r: OmsResponse, dispatcher: Dispatcher): Flow<seq<OmsResponse>> {
    if dispatcher(out + [r]).None? then Returned(out + [r]) else Threw(out + [r], dispatcher(out + [r]).value)
  }

  /** The callback of an order; `unreadable` tells which success bodies cannot be read. */
  function OrderAck(env: Environment, response: Response, unreadable: string -> Option<Exception>, dispatcher: Dispatcher, order: OrderRef): Flow<seq<OmsResponse>> {
    Process(env, [], response,
            (out: seq<OmsResponse>, info: ErrorInfo) => Dispatch(out, Refused(order, info), dispatcher),
            (out: seq<OmsResponse>, body: string) => match unreadable(body)
                           case Some(e) => Threw(out, e)
                           case None => Dispatch(out, Accepted(order), dispatcher))
  }

  /** The response that is dispatched inside the guarded part, on either path. */
  function FirstResponse(env: Environment, response: Response, unreadable: string -> Option<Exception>, order: OrderRef): Option<OmsResponse> {
    if IsSuccess(response) then if unreadable(response.body).None? then Some(Accepted(order)) else None
    else match Reported(env, response)
      case Some(info) => Some(Refused(order, info))
      case None => None
  }

  /** The exception that comes before any response. */
  function Obstacle(env: Environment, response: Response, unreadable: string -> Option<Exception>, order: OrderRef): Exception
    requires !IsFatal(env, response) && FirstResponse(env, response, unreadable, order).None?
  {
    if IsSuccess(response) then unreadable(response.body).value else Raised(env, response)
  }

  lemma DispatchIs(out: seq<OmsResponse>, r: OmsResponse, dispatcher: Dispatcher)
    ensures Dispatch(out, r, dispatcher) ==
            if dispatcher(out + [r]).None? then Returned(out + [r]) else Threw(out + [r], dispatcher(out + [r]).value)
  {
  }

  /** All that an order callback can do: one response, or two if the dispatcher throws on the first. */
  lemma OrderAckIs(env: Environment, response: Response, unreadable: string -> Option<Exception>, dispatcher: Dispatcher, order: OrderRef)
    requires !IsFatal(env, response)
    ensures var flow := OrderAck(env, response, unreadable, dispatcher, order);
            match FirstResponse(env, response, unreadable, order)
            case None => flow == Dispatch([], Refused(order, Translate(Obstacle(env, response, unreadable, order))), dispatcher)
            case Some(r) =>
              if dispatcher([r]).None? then flow == Returned([r])
              else flow == Dispatch([r], Refused(order, Translate(dispatcher([r]).value)), dispatcher)
  {
    hide Dispatch;
    var first := FirstResponse(env, response, unreadable, order);
    if first.Some? {
      DispatchIs([], first.value, dispatcher);
      assert [] + [first.value] == [first.value];
    }
  }

  function Responses(flow: Flow<seq<OmsResponse>>): seq<OmsResponse> {
    if flow.Terminated? then [] else flow.state
  }

  /** The number of responses. An order callback answers its own order only, with one response, unless
      the process ends. It answers twice if and only if the dispatcher throws on the response that is
      dispatched in the guarded part, be it an acceptance or a rejection; and an exception leaves the
      callback if and only if the dispatcher throws on the last response. */
  lemma OrderAnswers(env: Environment, response: Response, unreadable: string -> Option<Exception>, dispatcher: Dispatcher, order: OrderRef)
    ensures var flow := OrderAck(env, response, unreadable, dispatcher, order);
            var out, first := Responses(flow), FirstResponse(env, response, unreadable, order);
            && (flow.Terminated? <==> IsFatal(env, response))
            && (forall r :: r in out ==> OrderRef(r.userId, r.orderId, r.version) == order)
            && (!IsFatal(env, response) ==>
                  && 1 <= |out| <= 2
                  && (|out| == 2 <==> first.Some? && dispatcher([first.value]).Some?)
                  && (first.Some? ==> out[0] == first.value)
                  && (flow.Threw? <==> dispatcher(out).Some?))
  {
    hide OrderAck;
    if !IsFatal(env, response) {
      OrderAckIs(env, response, unreadable, dispatcher, order);
      assert forall r: OmsResponse :: [] + [r] == [r];
    } else {
      assert OrderAck(env, response, unreadable, dispatcher, order) == Terminated by {
        FatalEnds(env, response, unreadable, dispatcher, order);
      }
    }
  }

  lemma FatalEnds(env: Environment, response: Response, unreadable: string -> Option<Exception>, dispatcher: Dispatcher, order: OrderRef)
    requires IsFatal(env, response)
    ensures OrderAck(env, response, unreadable, dispatcher, order) == Terminated
  {
  }

  /** The process ends on a redirection, and on status 403 if so configured; otherwise it does not. */
  lemma WhenFatal(env: Environment, response: Response, unreadable: string -> Option<Exception>, dispatcher: Dispatcher, order: OrderRef)
    ensures OrderAck(env, response, unreadable, dispatcher, order).Terminated? <==>
            && response.Result?
            && (response.category == REDIRECTION || (response.category == CLIENT_ERROR && response.status == 403 && env.terminateOn403))
  {
    hide OrderAck;
    OrderAnswers(env, response, unreadable, dispatcher, order);
  }

  /** The response that an order gets for an exception. */
  ghost predicate Tells(r: OmsResponse, order: OrderRef, origin: Origin, status: RequestStatus, error: string) {
    r == OmsResponse(origin, status, error, order.userId, order.orderId, order.version)
  }

  /** The first response, case by case. An answer that could be read accepts the order; a refusal by the
      exchange rejects it, with the error that the status or the body stands for. Whatever prevents an
      answer is reported as it is: a network error by the gateway with its own status, so that a timeout is
      not taken for a rejection; an exception of the order-management system with its origin, status and
      error; any other as an unknown error. */
  lemma FirstAnswer(env: Environment, response: Response, unreadable: string -> Option<Exception>, dispatcher: Dispatcher, order: OrderRef)
    requires !IsFatal(env, response)
    ensures var out := Responses(OrderAck(env, response, unreadable, dispatcher, order));
            && |out| > 0
            && if FirstResponse(env, response, unreadable, order).None? then
                 match Obstacle(env, response, unreadable, order)
                 case OmsException(info) => Tells(out[0], order, info.origin, info.status, info.error)
                 case NetworkError(status, error, _) => Tells(out[0], order, GATEWAY, status, error)
                 case OtherException(_) => Tells(out[0], order, EXCHANGE, ERROR, "UNKNOWN")
               else if response.category == SUCCESS then Tells(out[0], order, EXCHANGE, ACCEPTED, "")
               else if response.category == CLIENT_ERROR && response.status in {403, 418, 429} then
                 Tells(out[0], order, EXCHANGE, REJECTED, "REQUEST_RATE_LIMIT_REACHED")
               else if response.category == CLIENT_ERROR then
                 && env.parseError(response.body).Success?
                 && Tells(out[0], order, EXCHANGE, REJECTED, env.guessError(env.parseError(response.body).value.0))
               else response.category == SERVER_ERROR && Tells(out[0], order, EXCHANGE, REJECTED, "UNKNOWN")
  {
    hide OrderAck;
    OrderAckIs(env, response, unreadable, dispatcher, order);
    assert forall r: OmsResponse :: [] + [r] == [r];
  }

  /** What counts as an obstacle: no result at all, a status that is neither a success nor an error, an
      error whose body cannot be parsed, and a success whose body cannot be read. */
  lemma ObstacleIs(env: Environment, response: Response, unreadable: string -> Option<Exception>, order: OrderRef)
    requires !IsFatal(env, response)
    ensures FirstResponse(env, response, unreadable, order).None? <==>
            match response
            case NoResult(_) => true
            case Result(status, category, body) =>
              || category == UNKNOWN || category == INFORMATIONAL_RESPONSE
              || (category == CLIENT_ERROR && status !in {403, 418, 429} && env.parseError(body).Failure?)
              || (category == SUCCESS && unreadable(body).Some?)
    ensures FirstResponse(env, response, unreadable, order).None? ==>
              var e := Obstacle(env, response, unreadable, order);
              match response
              case NoResult(exception) => e == exception
              case Result(status, SUCCESS, body) => Some(e) == unreadable(body)
              case Result(status, CLIENT_ERROR, body) => env.parseError(body) == Failure(e)
              case Result(status, _, _) => e == env.expectOk(status)
  {
  }

  /** The second response reports what the dispatcher threw on the first, in the same way. */
  lemma SecondAnswer(env: Environment, response: Response, unreadable: string -> Option<Exception>, dispatcher: Dispatcher, order: OrderRef)
    requires !IsFatal(env, response) && FirstResponse(env, response, unreadable, order).Some?
    ensures var out := Responses(OrderAck(env, response, unreadable, dispatcher, order));
            && |out| > 0
            && match dispatcher([out[0]])
               case None => |out| == 1
               case Some(e) =>
                 && |out| == 2
                 && match e
                    case OmsException(info) => Tells(out[1], order, info.origin, info.status, info.error)
                    case NetworkError(status, error, _) => Tells(out[1], order, GATEWAY, status, error)
                    case OtherException(_) => Tells(out[1], order, EXCHANGE, ERROR, "UNKNOWN")
  {
    hide OrderAck;
    OrderAckIs(env, response, unreadable, dispatcher, order);
    assert forall r: OmsResponse :: [] + [r] == [r];
  }

  /** Acceptance is what the first response reports if and only if it answers a success that could be
      read, or an exception prevented any response and itself carries that status. */
  lemma AcceptanceReported(env: Environment, response: Response, unreadable: string -> Option<Exception>, dispatcher: Dispatcher, order: OrderRef)
    requires !IsFatal(env, response)
    ensures var out := Responses(OrderAck(env, response, unreadable, dispatcher, order));
            && |out| > 0
            && (out[0].status == ACCEPTED <==>
                  || (IsSuccess(response) && unreadable(response.body).None?)
                  || (FirstResponse(env, response, unreadable, order).None?
                      && match Obstacle(env, response, unreadable, order)
                         case OmsException(info) => info.status == ACCEPTED
                         case NetworkError(status, _, _) => status == ACCEPTED
                         case OtherException(_) => false))
  {
    hide OrderAck;
    OrderAckIs(env, response, unreadable, dispatcher, order);
    assert forall r: OmsResponse :: [] + [r] == [r];
  }
}
