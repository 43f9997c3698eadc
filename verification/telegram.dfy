/**
  The part of the Telegram bot library the relay uses: incoming updates and
  the outgoing message configuration with its inline keyboard. Only the
  fields the relay reads or writes are kept.
 */
module TelegramApi {
  import opened Wrappers

  /** A chat; the relay only compares its identifier (an int64 in the library). */
  datatype Chat = Chat(id: int)

  /** A text message together with the chat it was posted in. */
  datatype Message = Message(chat: Chat, text: string)

  /** A press on an inline button: the button's data and the bot message that carried it. */
  datatype CallbackQuery = CallbackQuery(message: Message, data: string)

  /**
    One update from the long-poll stream. Either pointer may be nil; every
    other kind of update (edited message, channel post, inline query, ...)
    looks to the relay like an update with neither.
   */
  datatype Update = Update(message: Option<Message>, callbackQuery: Option<CallbackQuery>)

  datatype InlineKeyboardButton = InlineKeyboardButton(text: string, callbackData: string)

  /** Rows of buttons, top to bottom. */
  datatype InlineKeyboardMarkup = InlineKeyboardMarkup(inlineKeyboard: seq<seq<InlineKeyboardButton>>)

  /** An outgoing message; `replyMarkup` is None when no keyboard is attached. */
  datatype MessageConfig = MessageConfig(
    chatId: int,
    text: string,
    parseMode: string,
    replyMarkup: Option<InlineKeyboardMarkup>)

  /** The library's error value; its error text is its message. */
  datatype Error = Error(message: string)

  /** The zero value of a message configuration: no chat, no text, no keyboard. */
  const ZeroMessage := MessageConfig(0, "", "", None)

  /** A plain text message to a chat, with the library's defaults. */
  function NewMessage(chatId: int, text: string): MessageConfig {
    MessageConfig(chatId, text, "", None)
  }

  function NewInlineKeyboardButtonData(text: string, data: string): InlineKeyboardButton {
    InlineKeyboardButton(text, data)
  }
}
