/**
  The update router (botUpdateProcessor): one step of the chat event loop.
  The focus is the ID of the sender the operator currently answers, or the
  reserved token "none". A step classifies the update, may change the focus
  (callback queries only), returns the chat reply and an optional error, and
  hands at most one reply to the queue sender.
 */
module Router {
  import opened Wrappers
  import opened TelegramApi
  import opened Messages

  /** The focus value meaning "no dialog is open"; also the focus at start-up. */
  const NoFocus := "none"

  const PermissionDenied := Error("Permission denied")
  const EmptyMessage := Error("Empty message")

  const NoOneToWrite := "Некому писать"
  const RepliedPrefix := "Вы ответили пользователю с ID "
  const ClosedDialog := "Вы закрыли активный диалог"
  const OpenedPrefix := "Вы открыли диалог с ID "

  /**
    The outcome of one step: the focus afterwards, the reply to send, the
    reply handed to the queue sender (None when the sender is not called)
    and the returned error.
   */
  datatype StepResult = StepResult(
    focus: string,
    reply: MessageConfig,
    sent: Option<SendResponse>,
    err: Option<Error>)

  /** An update takes the callback branch only when it carries no message. */
  predicate IsSelection(update: Update) {
    update.message.None? && update.callbackQuery.Some?
  }

  function Process(update: Update, focus: string, chatId: int): (r: StepResult)
    ensures IsSelection(update) ==> r.focus == update.callbackQuery.value.data
    ensures !IsSelection(update) ==> r.focus == focus
    ensures r.sent.Some? ==>
      && r.sent.value.ID == focus != NoFocus && r.err.None? && update.message.Some?
      && update.message.value.chat.id == chatId && r.sent.value.Message == update.message.value.text
    ensures update.message.Some? ==> (r.err.Some? <==> update.message.value.chat.id != chatId)
    ensures r.err.Some? <==> r.reply == ZeroMessage
    ensures r.err.None? ==> r.reply.replyMarkup.None? && r.reply.parseMode == ""
  {
    if update.message.Some? then
      var message := update.message.value;
      if message.chat.id != chatId then
        StepResult(focus, ZeroMessage, None, Some(PermissionDenied))
      else if focus == NoFocus then
        StepResult(focus, NewMessage(message.chat.id, NoOneToWrite), None, None)
      else
        StepResult(focus, NewMessage(message.chat.id, RepliedPrefix + focus),
                   Some(SendResponse(focus, message.text)), None)
    else if update.callbackQuery.Some? then
      var query := update.callbackQuery.value;
      var focus' := query.data;
      var text := if focus' == NoFocus then ClosedDialog else OpenedPrefix + focus';
      StepResult(focus', NewMessage(query.message.chat.id, text), None, None)
    else
      StepResult(focus, ZeroMessage, None, Some(EmptyMessage))
  }

  /** A message from any chat but the configured one is refused and changes nothing. */
  lemma UnauthorisedMessageDenied(update: Update, focus: string, chatId: int)
    requires update.message.Some? && update.message.value.chat.id != chatId
    ensures var r := Process(update, focus, chatId);
      r.err == Some(PermissionDenied) && r.focus == focus && r.sent.None? && r.reply == ZeroMessage
  {
  }

  /** With no dialog open, an authorised message only gets "no one to write to" back. */
  lemma UnfocusedMessageAnswered(update: Update, chatId: int)
    requires update.message.Some? && update.message.value.chat.id == chatId
    ensures var r := Process(update, NoFocus, chatId);
      r.err.None? && r.focus == NoFocus && r.sent.None? && r.reply == NewMessage(chatId, NoOneToWrite)
  {
  }

  /** With a dialog open, an authorised message is forwarded once to the focused sender. */
  lemma FocusedMessagePublished(update: Update, focus: string, chatId: int)
    requires update.message.Some? && update.message.value.chat.id == chatId
    requires focus != NoFocus
    ensures var r := Process(update, focus, chatId);
      && r.err.None? && r.focus == focus
      && r.sent == Some(SendResponse(focus, update.message.value.text))
      && r.reply == NewMessage(chatId, RepliedPrefix + focus)
  {
  }

  /**
    A callback query sets the focus to its data whatever the focus was and
    whichever chat it came from; the reply says "closed" exactly when the
    data is the reserved token. Nothing is forwarded.
   */
  lemma SelectionSetsFocus(update: Update, focus: string, chatId: int)
    requires IsSelection(update)
    ensures var r := Process(update, focus, chatId); var q := update.callbackQuery.value;
      && r.focus == q.data && r.err.None? && r.sent.None?
      && r.reply.chatId == q.message.chat.id
      && (r.reply.text == ClosedDialog <==> q.data == NoFocus)
      && (q.data != NoFocus ==> r.reply.text == OpenedPrefix + q.data)
  {
    OpenedIsNotClosed(update.callbackQuery.value.data);
  }

  /** No "opened" reply reads as the "closed" reply. */
  lemma OpenedIsNotClosed(originId: string)
    ensures OpenedPrefix + originId != ClosedDialog
  {
    assert (OpenedPrefix + originId)[3] != ClosedDialog[3];
  }

  /** Repeating a callback query changes nothing further. */
  lemma SelectionIdempotent(update: Update, focus: string, chatId: int)
    requires IsSelection(update)
    ensures var r := Process(update, focus, chatId);
      Process(update, r.focus, chatId) == r
  {
  }

  /** When an update carries both, the callback query is ignored. */
  lemma MessageTakesPrecedence(update: Update, focus: string, chatId: int)
    requires update.message.Some?
    ensures Process(update, focus, chatId) == Process(update.(callbackQuery := None), focus, chatId)
  {
  }

  /** An update with neither a message nor a callback query is an error that changes nothing. */
  lemma EmptyUpdateRejected(update: Update, focus: string, chatId: int)
    requires update.message.None? && update.callbackQuery.None?
    ensures var r := Process(update, focus, chatId);
      r.err == Some(EmptyMessage) && r.focus == focus && r.sent.None? && r.reply == ZeroMessage
  {
  }
}
