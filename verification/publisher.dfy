/**
  The queue side of a reply (getRabbitSender): the reply is wrapped in a
  tagged envelope and published to the configured queue through the
  default exchange.
 */
module Publisher {
  import opened Wrappers
  import opened Messages

  /** Discriminator telling the backend's consumer that the envelope holds an operator reply. */
  const BotResponseType := "BOT_RESPONSE"
  const DefaultExchange := ""
  const PlainText := "text/plain"
  const PublishErrorContext := "Failed to publish a message to rabbitmq"

  function Envelope(message: SendResponse): RabbitResponse {
    RabbitResponse(BotResponseType, message)
  }

  /** What a consumer multiplexing on the tag reads out of an envelope. */
  function Unwrap(envelope: RabbitResponse): (r: Option<SendResponse>)
    ensures r.Some? <==> envelope.Type == BotResponseType
    ensures r.Some? ==> r.value == envelope.Data
  {
    if envelope.Type == BotResponseType then Some(envelope.Data) else None
  }

  /** The envelope carries the reply unchanged under the bot-response tag. */
  lemma EnvelopeRoundTrip(message: SendResponse)
    ensures Envelope(message).Type == BotResponseType
    ensures Unwrap(Envelope(message)) == Some(message)
  {
  }

  /**
    One call of the sender for reply `message` on queue `queue`;
    `publishError` is the channel's answer. Exactly one publication, of the
    tagged envelope, followed by an alert when publishing failed.
   */
  function RabbitSend(queue: string, message: SendResponse, publishError: Option<string>): (effects: seq<Effect>)
    ensures |effects| >= 1 && effects[0].Published?
    ensures effects[0].publication.routingKey == queue
    ensures effects[0].publication.exchange == DefaultExchange
    ensures effects[0].publication.contentType == PlainText
    ensures Unwrap(effects[0].publication.body) == Some(message)
    ensures forall k :: 1 <= k < |effects| ==> effects[k].Alerted?
    ensures CountSent(effects) == 0
    ensures |effects| == 1 <==> publishError.None?
    ensures AlertTexts(effects) == if publishError.Some? then [PublishErrorContext + ": " + publishError.value] else []
  {
    var publication := Publication(DefaultExchange, queue, false, false, PlainText, Envelope(message));
    var effects := [Published(publication)] + LogOnError(publishError, PublishErrorContext);
    assert CountSent([Published(publication)]) == 0 by { assert [Published(publication)][..0] == []; }
    CountSentAppend([Published(publication)], LogOnError(publishError, PublishErrorContext));
    AlertTextsAppend([Published(publication)], LogOnError(publishError, PublishErrorContext));
    AlertTextsOfLog(publishError, PublishErrorContext);
    assert AlertTexts([Published(publication)]) == [] by { assert [Published(publication)][..0] == []; }
    effects
  }
}
