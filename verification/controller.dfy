/**
 * `sendEmail` and its helpers: validate, probe SendGrid, then MailGun, send
 * through the first one whose probe is answered with 401, and normalise the
 * provider's answer.
 * The network is an oracle from each call to its outcome; a run reports the
 * reply and the calls it made, in order.
 */
module Controller {
  import opened Message
  import SendGrid
  import MailGun
  import opened ValidationErrors

  /** What an HTTP call came back with: a response status, or a network-level failure. */
  datatype Outcome = Status(code: int) | TransportError

  const SentMessage := "Your email has been sent"
  const QueuedMessage := "Your email has been added to the queue"

  /**
   * What `constructResponseObj` is given: a provider response, whose `status`
   * is read, or a bare number, which has no `status` at all.
   */
  datatype ResponseArg = HttpResponse(status: int) | BareNumber(n: int)

  /** The normalised reply `{timestamp, message}`. */
  datatype DispatchResult = DispatchResult(timestamp: int, message: string)

  datatype Provider = SendGridProvider | MailGunProvider

  /** A network call the controller makes, with the body it sends. */
  datatype Call =
    | Probe(provider: Provider)
    | SendJson(body: SendGrid.RequestBody)
    | SendForm(form: seq<MailGun.FormEntry>)
  {
    predicate IsSend() { !Probe? }
  }

  /** What `sendEmail` resolves to; `Undefined` is the value of a send whose `.catch` ran. */
  datatype Reply =
    | BadRequestReply(errorType: string, errorMessages: seq<string>)
    | Normalized(result: DispatchResult)
    | Undefined

  /** A reply and the calls made to produce it, in order. */
  datatype Run = Run(reply: Reply, calls: seq<Call>)

  /** The validator's verdict on the request body. */
  datatype Validation = Accepted | Rejected(details: seq<ErrorDetail>)

  /** `healthCheck`: a provider is up iff the unauthenticated probe is answered with 401. */
  function HealthCheck(probe: Outcome): (up: bool)
    ensures up <==> probe == Status(401)  // so a transport error means down
  {
    match probe
    case Status(code) => code == 401
    case TransportError => false
  }

  /**
   * `constructResponseObj`: the "queue" message iff the argument has a status
   * of at least 400, the "sent" message otherwise, stamped with the clock
   * reading `now`.
   */
  function ConstructResponseObj(res: ResponseArg, now: int): (r: DispatchResult)
    ensures r.timestamp == now
    ensures r.message == QueuedMessage <==> res.HttpResponse? && res.status >= 400
    ensures r.message == SentMessage <==> !(res.HttpResponse? && res.status >= 400)
  {
    var message := match res
      case HttpResponse(status) => if status >= 400 then QueuedMessage else SentMessage
      case BareNumber(_) => SentMessage;  // `undefined >= 400` is false
    DispatchResult(now, message)
  }

  /**
   * The `.then`/`.catch` of a send: a response is normalised, a transport
   * error is logged and leaves no value.
   */
  function Settle(sent: Outcome, now: int): (reply: Reply)
    ensures reply == Undefined <==> sent == TransportError
    ensures sent.Status? ==>
      reply.Normalized? && reply.result.timestamp == now &&
      (reply.result.message == QueuedMessage <==> sent.code >= 400) &&
      (reply.result.message == SentMessage <==> sent.code < 400)
  {
    match sent
    case Status(code) => Normalized(ConstructResponseObj(HttpResponse(code), now))
    case TransportError => Undefined
  }

  /** `sendEmailViaSendGrid`: one POST of the JSON body. */
  function SendViaSendGrid(m: EmailMessage, network: Call -> Outcome, now: int): (run: Run)
    ensures run.calls == [SendJson(SendGrid.Body(m))]
    ensures run.reply == Settle(network(run.calls[0]), now)  // no value iff a transport error
  {
    var call := SendJson(SendGrid.Body(m));
    Run(Settle(network(call), now), [call])
  }

  /** `sendEmailViaMailGun`: one POST of the form body. */
  function SendViaMailGun(m: EmailMessage, network: Call -> Outcome, now: int): (run: Run)
    ensures run.calls == [SendForm(MailGun.Form(m))]
    ensures run.reply == Settle(network(run.calls[0]), now)  // no value iff a transport error
  {
    var call := SendForm(MailGun.Form(m));
    Run(Settle(network(call), now), [call])
  }

  /** The reply when neither probe succeeded: line 61 passes the bare number 503. */
  function UnavailableReply(now: int): (r: DispatchResult)
    ensures r == DispatchResult(now, SentMessage)
  {
    ConstructResponseObj(BareNumber(503), now)
  }

  /** The provider-selection chain of `sendEmail`, for a body that passed validation. */
  function Dispatch(m: EmailMessage, network: Call -> Outcome, now: int): (run: Run)
    ensures 2 <= |run.calls| <= 3 && run.calls[0] == Probe(SendGridProvider)
    ensures run.reply.Normalized? ==> run.reply.result.timestamp == now
  {
    if HealthCheck(network(Probe(SendGridProvider))) then
      var sent := SendViaSendGrid(m, network, now);
      Run(sent.reply, [Probe(SendGridProvider)] + sent.calls)
    else if HealthCheck(network(Probe(MailGunProvider))) then
      var sent := SendViaMailGun(m, network, now);
      Run(sent.reply, [Probe(SendGridProvider), Probe(MailGunProvider)] + sent.calls)
    else
      Run(Normalized(UnavailableReply(now)), [Probe(SendGridProvider), Probe(MailGunProvider)])
  }

  /**
   * `sendEmail`. A rejected body is answered with one message per detail, in
   * detail order, and nothing is sent or probed; an accepted one goes through
   * the provider-selection chain.
   */
  method SendEmail(body: EmailMessage, validation: Validation, network: Call -> Outcome, now: int)
    returns (run: Run)
    ensures validation.Rejected? ==>
      run.calls == [] &&
      run.reply.BadRequestReply? && run.reply.errorType == BadRequest &&
      |run.reply.errorMessages| == |validation.details| &&
      forall i :: 0 <= i < |validation.details| ==>
        run.reply.errorMessages[i] == ErrorMessage(validation.details[i])
    ensures validation.Accepted? ==> run == Dispatch(body, network, now)
  {
    match validation
    case Rejected(details) =>
      var messages: seq<string> := [];
      var i := 0;
      while i < |details|
        invariant 0 <= i <= |details|
        invariant |messages| == i
        invariant forall j :: 0 <= j < i ==> messages[j] == ErrorMessage(details[j])
      {
        var detail := details[i];
        var text;
        if PathKey("to") in detail.path || PathKey("cc") in detail.path
          || PathKey("bcc") in detail.path
        {
          text := "\"" + SegmentText(detail.path[0]) + InvalidEmails;
        } else {
          text := detail.message;
        }
        assert text == ErrorMessage(detail);
        messages := messages + [text];
        i := i + 1;
      }
      run := Run(BadRequestReply(BadRequest, messages), []);
    case Accepted =>
      run := Dispatch(body, network, now);
  }

  /**
   * The order of calls is fixed: the SendGrid probe comes first; the MailGun
   * probe is made iff SendGrid's failed; SendGrid gets the JSON body iff its
   * probe succeeded, MailGun the form iff only its probe did; both probes
   * failing means no send; at most one send is made, as the last call; and
   * no call is made twice.
   */
  lemma DispatchOrder(m: EmailMessage, network: Call -> Outcome, now: int)
    ensures |Dispatch(m, network, now).calls| > 0
    ensures Dispatch(m, network, now).calls[0] == Probe(SendGridProvider)
    ensures Probe(MailGunProvider) in Dispatch(m, network, now).calls
      <==> !HealthCheck(network(Probe(SendGridProvider)))
    ensures SendJson(SendGrid.Body(m)) in Dispatch(m, network, now).calls
      <==> HealthCheck(network(Probe(SendGridProvider)))
    ensures SendForm(MailGun.Form(m)) in Dispatch(m, network, now).calls
      <==> !HealthCheck(network(Probe(SendGridProvider))) && HealthCheck(network(Probe(MailGunProvider)))
    ensures (forall c :: c in Dispatch(m, network, now).calls ==> !c.IsSend())
      <==> !HealthCheck(network(Probe(SendGridProvider))) && !HealthCheck(network(Probe(MailGunProvider)))
    ensures forall i :: 0 <= i < |Dispatch(m, network, now).calls| - 1 ==>
      !Dispatch(m, network, now).calls[i].IsSend()
    ensures forall i, j :: 0 <= i < j < |Dispatch(m, network, now).calls| ==>
      Dispatch(m, network, now).calls[i] != Dispatch(m, network, now).calls[j]
  {
  }

  /**
   * The reply follows from the one send made: no value iff that send failed
   * in transport; the "queue" message iff it was answered with a status of at
   * least 400; otherwise the "sent" message, which is also the reply when no
   * send was made at all.
   */
  lemma DispatchReply(m: EmailMessage, network: Call -> Outcome, now: int)
    ensures var run := Dispatch(m, network, now);
      var last := run.calls[|run.calls| - 1];
      (run.reply == Undefined <==> last.IsSend() && network(last) == TransportError) &&
      (run.reply.Normalized? ==> run.reply.result.timestamp == now) &&
      ((run.reply.Normalized? && run.reply.result.message == QueuedMessage) <==>
        (last.IsSend() && network(last).Status? && network(last).code >= 400)) &&
      (last.IsSend() && network(last).Status? && network(last).code < 400 ==>
        run.reply == Normalized(DispatchResult(now, SentMessage))) &&
      (!last.IsSend() ==> run.reply == Normalized(DispatchResult(now, SentMessage)))
  {
  }

  /**
   * The run depends on the network only through the calls it makes: two
   * networks that agree on those calls give the same run.
   */
  lemma DispatchReadsOnlyItsCalls(m: EmailMessage, n1: Call -> Outcome, n2: Call -> Outcome, now: int)
    requires forall c :: c in Dispatch(m, n1, now).calls ==> n1(c) == n2(c)
    ensures Dispatch(m, n1, now) == Dispatch(m, n2, now)
  {
  }

  /** As written, a request that finds both providers down is told its email has been sent. */
  lemma UnavailableReportsSent(m: EmailMessage, network: Call -> Outcome, now: int)
    requires !HealthCheck(network(Probe(SendGridProvider)))
    requires !HealthCheck(network(Probe(MailGunProvider)))
    ensures Dispatch(m, network, now).reply == Normalized(DispatchResult(now, SentMessage))
    ensures Dispatch(m, network, now).reply != Normalized(DispatchResult(now, QueuedMessage))
  {
  }

  /** The reply line 61 evidently means: a response with status 503, which is queued. */
  function UnavailableReplyIntended(now: int): (r: DispatchResult)
    ensures r == DispatchResult(now, QueuedMessage)
  {
    ConstructResponseObj(HttpResponse(503), now)
  }
}
