/**
  The notification the operator receives for each backend request
  (formatMessage, generateBotRequestMessage and the HTTP handler), and a
  decoder that reads the request back out of a notification.
 */
module Notification {
  import opened Wrappers
  import opened TelegramApi
  import opened Messages

  /** The three fixed pieces of the markdown template around the ID and the message. */
  const Header := "*Новое сообщение*\n*ID* _"
  const Separator := "_\n*Message* _"
  const Trailer := "_\n"

  /** Button labels and the reserved token that closes the active dialog. */
  const ReplyLabel := "Ответить"
  const CloseLabel := "Закрыть"
  const CloseToken := "none"

  const MarkdownMode := "markdown"

  /** Context of the alerts raised by the HTTP handler. */
  const ParseErrorContext := "Parse request error"
  const SendErrorContext := "Handle request from backend error"

  /** `t` occurs in `s` starting at position `at`. */
  predicate OccursAt(s: string, t: string, at: nat) {
    at + |t| <= |s| && s[at..at + |t|] == t
  }

  /** Renders the notification text; the ID and the message appear verbatim at fixed offsets. */
  function FormatMessage(message: SendRequest): (text: string)
    ensures |text| == |Header| + |message.ID| + |Separator| + |message.Message| + |Trailer|
    ensures OccursAt(text, Header, 0)
    ensures OccursAt(text, message.ID, |Header|)
    ensures OccursAt(text, Separator, |Header| + |message.ID|)
    ensures OccursAt(text, message.Message, |Header| + |message.ID| + |Separator|)
    ensures OccursAt(text, Trailer, |text| - |Trailer|)
  {
    Header + message.ID + Separator + message.Message + Trailer
  }

  /** The text alone does not determine the request: the ID may itself contain the separator. */
  lemma FormatMessageNotInjective()
    ensures exists m1: SendRequest, m2: SendRequest :: m1 != m2 && FormatMessage(m1) == FormatMessage(m2)
  {
    var m1 := SendRequest(Separator, "");
    var m2 := SendRequest("", Separator);
    assert m1.ID != m2.ID by { assert |m1.ID| != |m2.ID|; }
    SeparatorMoves("", "", "");
    assert m1.ID == "" + Separator + "" && m2.Message == "" + Separator + "";
  }

  /** A separator inside the ID reads the same as one at the start of the message. */
  lemma SeparatorMoves(a: string, b: string, c: string)
    ensures FormatMessage(SendRequest(a + Separator + b, c)) == FormatMessage(SendRequest(a, b + Separator + c))
  {
    Regroup(Header, a, Separator, b, c, Trailer);
  }

  /** Moving the middle piece from the ID to the message leaves the text unchanged. */
  lemma Regroup(h: string, a: string, sep: string, b: string, c: string, t: string)
    ensures h + (a + sep + b) + sep + c + t == h + a + sep + (b + sep + c) + t
  {
  }

  /** Attaches the two-button keyboard to a markdown message for the operator's chat. */
  function GenerateBotRequestMessage(message: string, requestId: string, chatId: int): (m: MessageConfig)
    ensures m.chatId == chatId && m.text == message && m.parseMode == MarkdownMode
    ensures m.replyMarkup.Some?
    ensures |m.replyMarkup.value.inlineKeyboard| == 1
    ensures m.replyMarkup.value.inlineKeyboard[0]
         == [InlineKeyboardButton(ReplyLabel, requestId), InlineKeyboardButton(CloseLabel, CloseToken)]
  {
    var msg := NewMessage(chatId, message).(parseMode := MarkdownMode);
    var responseButton := NewInlineKeyboardButtonData(ReplyLabel, requestId);
    var byeButton := NewInlineKeyboardButtonData(CloseLabel, CloseToken);
    var row := [responseButton, byeButton];
    msg.(replyMarkup := Some(InlineKeyboardMarkup([row])))
  }

  /** The notification sent for one backend request. */
  function NotificationFor(request: SendRequest, chatId: int): MessageConfig {
    GenerateBotRequestMessage(FormatMessage(request), request.ID, chatId)
  }

  /**
    Reads a request back out of a notification: the ID from the reply
    button's token, the message from between the template pieces that
    surround it once the ID is known.
   */
  function RequestOf(m: MessageConfig): (r: Option<SendRequest>)
    ensures r.Some? ==> m.replyMarkup.Some? && |m.replyMarkup.value.inlineKeyboard| == 1
    ensures r.Some? ==> FormatMessage(r.value) == m.text
  {
    if m.replyMarkup.None? || |m.replyMarkup.value.inlineKeyboard| != 1 then None
    else
      var row := m.replyMarkup.value.inlineKeyboard[0];
      if |row| != 2 || row[1] != InlineKeyboardButton(CloseLabel, CloseToken) || row[0].text != ReplyLabel then None
      else
        var id := row[0].callbackData;
        var prefix := Header + id + Separator;
        var text := m.text;
        if |text| < |prefix| + |Trailer| || text[..|prefix|] != prefix || text[|text| - |Trailer|..] != Trailer then None
        else
          var body := text[|prefix|..|text| - |Trailer|];
          assert text == prefix + body + Trailer;
          Some(SendRequest(id, body))
  }

  /** Every notification decodes back to the request it was made from. */
  lemma NotificationRoundTrip(request: SendRequest, chatId: int)
    ensures RequestOf(NotificationFor(request, chatId)) == Some(request)
  {
    var m := NotificationFor(request, chatId);
    var prefix := Header + request.ID + Separator;
    assert m.text == prefix + request.Message + Trailer;
    assert m.text[..|prefix|] == prefix;
    assert m.text[|m.text| - |Trailer|..] == Trailer;
    assert m.text[|prefix|..|m.text| - |Trailer|] == request.Message;
  }

  /** Any trace of a logged error, a send and another logged error holds exactly that one send. */
  lemma LoggedSendShape(err1: Option<string>, context1: string, notification: MessageConfig, err2: Option<string>, context2: string)
    ensures CountSent(LogOnError(err1, context1) + [Sent(notification)] + LogOnError(err2, context2)) == 1
    ensures Sent(notification) in LogOnError(err1, context1) + [Sent(notification)] + LogOnError(err2, context2)
    ensures forall k :: 0 <= k < |LogOnError(err1, context1) + [Sent(notification)] + LogOnError(err2, context2)| ==>
      var e := (LogOnError(err1, context1) + [Sent(notification)] + LogOnError(err2, context2))[k];
      (e.Sent? ==> e.message == notification) && !e.Published?
  {
    var alert1 := LogOnError(err1, context1);
    var alert2 := LogOnError(err2, context2);
    TraceLayout([], alert1, notification, alert2);
    assert [] + alert1 + [Sent(notification)] + alert2 == alert1 + [Sent(notification)] + alert2;
  }

  /** The alerts of such a trace are those of the two errors, in order. */
  lemma LoggedSendAlerts(err1: Option<string>, context1: string, notification: MessageConfig, err2: Option<string>, context2: string)
    ensures AlertTexts(LogOnError(err1, context1) + [Sent(notification)] + LogOnError(err2, context2))
         == (if err1.Some? then [context1 + ": " + err1.value] else [])
          + (if err2.Some? then [context2 + ": " + err2.value] else [])
  {
    AlertsAroundSend(LogOnError(err1, context1), notification, LogOnError(err2, context2));
    AlertTextsOfLog(err1, context1);
    AlertTextsOfLog(err2, context2);
  }

  /**
    The HTTP handler for one backend request. `parsed` is what the JSON
    decoder left in the request record and `parseError` its error text, if
    any; `sendError` is the chat transport's answer to the send. The
    notification is sent even when decoding failed.
   */
  function HandleRequest(parsed: SendRequest, parseError: Option<string>, chatId: int, sendError: Option<string>): (effects: seq<Effect>)
    ensures CountSent(effects) == 1
    ensures Sent(NotificationFor(parsed, chatId)) in effects
    ensures forall k :: 0 <= k < |effects| && effects[k].Sent? ==> RequestOf(effects[k].message) == Some(parsed)
    ensures forall k :: 0 <= k < |effects| ==> !effects[k].Published?
    ensures |effects| == 1 + (if parseError.Some? then 1 else 0) + (if sendError.Some? then 1 else 0)
    ensures AlertTexts(effects)
         == (if parseError.Some? then [ParseErrorContext + ": " + parseError.value] else [])
          + (if sendError.Some? then [SendErrorContext + ": " + sendError.value] else [])
  {
    var notification := NotificationFor(parsed, chatId);
    NotificationRoundTrip(parsed, chatId);
    LoggedSendShape(parseError, ParseErrorContext, notification, sendError, SendErrorContext);
    LoggedSendAlerts(parseError, ParseErrorContext, notification, sendError, SendErrorContext);
    LogOnError(parseError, ParseErrorContext) + [Sent(notification)] + LogOnError(sendError, SendErrorContext)
  }
}
