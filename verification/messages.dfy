/**
  The records the relay exchanges with its backend, and the observable
  effects of the relay on the outside world: chat messages sent, queue
  publications and error alerts.
 */
module Messages {
  import opened Wrappers
  import opened TelegramApi

  /** A message from the backend for the operator; `ID` identifies its sender. */
  datatype SendRequest = SendRequest(ID: string, Message: string)

  /** The operator's reply to the sender `ID`. */
  datatype SendResponse = SendResponse(ID: string, Message: string)

  /** The envelope put on the queue; `Type` tells consumers what `Data` is. */
  datatype RabbitResponse = RabbitResponse(Type: string, Data: SendResponse)

  /** One publish call on the AMQP channel (the body is kept as the envelope, not as JSON bytes). */
  datatype Publication = Publication(
    exchange: string,
    routingKey: string,
    mandatory: bool,
    immediate: bool,
    contentType: string,
    body: RabbitResponse)

  /** What the relay does to the outside world, in order. */
  datatype Effect =
    | Sent(message: MessageConfig)
    | Published(publication: Publication)
    | Alerted(text: string)

  /** Log-and-alert of a non-fatal error: at most one alert, and one exactly when there is an error. */
  function LogOnError(err: Option<string>, context: string): (effects: seq<Effect>)
    ensures |effects| <= 1
    ensures |effects| == 1 <==> err.Some?
    ensures forall k :: 0 <= k < |effects| ==> effects[k].Alerted?
    ensures err.Some? ==> effects[0].text == context + ": " + err.value
  {
    match err
    case None => []
    case Some(e) => [Alerted(context + ": " + e)]
  }

  /** The texts of the alerts among `effects`, in order. */
  function AlertTexts(effects: seq<Effect>): seq<string> {
    if |effects| == 0 then []
    else
      var last := effects[|effects| - 1];
      AlertTexts(effects[..|effects| - 1]) + (if last.Alerted? then [last.text] else [])
  }

  lemma {:induction false} AlertTextsAppend(a: seq<Effect>, b: seq<Effect>)
    ensures AlertTexts(a + b) == AlertTexts(a) + AlertTexts(b)
    decreases |b|
  {
    if |b| == 0 {
      assert a + b == a;
    } else {
      var b' := b[..|b| - 1];
      assert (a + b)[..|a + b| - 1] == a + b';
      AlertTextsAppend(a, b');
    }
  }

  /** The alert a log-and-alert call raises, as a list of texts. */
  lemma AlertTextsOfLog(err: Option<string>, context: string)
    ensures AlertTexts(LogOnError(err, context)) == if err.Some? then [context + ": " + err.value] else []
  {
    if err.Some? {
      assert LogOnError(err, context)[..0] == [];
    }
  }

  /** The alerts around one send are the alerts before it, then the alerts after it. */
  lemma AlertsAroundSend(before: seq<Effect>, message: MessageConfig, after: seq<Effect>)
    ensures AlertTexts(before + [Sent(message)] + after) == AlertTexts(before) + AlertTexts(after)
  {
    AlertTextsAppend(before, [Sent(message)]);
    AlertTextsAppend(before + [Sent(message)], after);
    SendHasNoAlert(message);
  }

  lemma SendHasNoAlert(message: MessageConfig)
    ensures AlertTexts([Sent(message)]) == []
  {
    assert [Sent(message)][..0] == [];
  }

  /** Number of chat messages sent in a sequence of effects. */
  function CountSent(effects: seq<Effect>): nat {
    if |effects| == 0 then 0
    else CountSent(effects[..|effects| - 1]) + (if effects[|effects| - 1].Sent? then 1 else 0)
  }

  lemma {:induction false} CountSentAppend(a: seq<Effect>, b: seq<Effect>)
    ensures CountSent(a + b) == CountSent(a) + CountSent(b)
    decreases |b|
  {
    if |b| == 0 {
      assert a + b == a;
    } else {
      var b' := b[..|b| - 1];
      assert (a + b)[..|a + b| - 1] == a + b';
      CountSentAppend(a, b');
    }
  }

  /**
    The layout of the effects of one handler or loop pass: publications,
    alerts, the one send, alerts. Exactly one message is sent, and the
    publications all come first.
   */
  lemma TraceLayout(published: seq<Effect>, alert: seq<Effect>, reply: MessageConfig, sendAlert: seq<Effect>)
    requires forall k :: 0 <= k < |published| ==> published[k].Published?
    requires forall k :: 0 <= k < |alert| ==> alert[k].Alerted?
    requires forall k :: 0 <= k < |sendAlert| ==> sendAlert[k].Alerted?
    ensures var trace := published + alert + [Sent(reply)] + sendAlert;
      && Sent(reply) in trace
      && (forall k :: 0 <= k < |trace| && trace[k].Sent? ==> trace[k].message == reply)
      && (forall k :: 0 <= k < |trace| && trace[k].Published? ==> k < |published| && trace[k] == published[k])
      && CountSent(trace) == 1
  {
    var trace := published + alert + [Sent(reply)] + sendAlert;
    NoSendsCounted(published);
    NoSendsCounted(alert);
    NoSendsCounted(sendAlert);
    CountSentAppend(published, alert);
    CountSentAppend(published + alert, [Sent(reply)]);
    CountSentAppend(published + alert + [Sent(reply)], sendAlert);
    assert CountSent([Sent(reply)]) == 1 by { assert [Sent(reply)][..0] == []; }
    assert trace[|published| + |alert|] == Sent(reply);
    forall k | 0 <= k < |trace|
      ensures trace[k].Sent? ==> trace[k].message == reply
      ensures trace[k].Published? ==> k < |published| && trace[k] == published[k]
    {
      if k < |published| {
        assert trace[k] == published[k];
      } else if k < |published| + |alert| {
        assert trace[k] == alert[k - |published|];
      } else if k > |published| + |alert| {
        assert trace[k] == sendAlert[k - |published| - |alert| - 1];
      }
    }
  }

  lemma {:induction false} NoSendsCounted(effects: seq<Effect>)
    requires forall k :: 0 <= k < |effects| ==> !effects[k].Sent?
    ensures CountSent(effects) == 0
    decreases |effects|
  {
    if |effects| > 0 {
      NoSendsCounted(effects[..|effects| - 1]);
    }
  }
}
