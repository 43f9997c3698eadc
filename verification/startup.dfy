/**
  Start-up of the relay: the operator chat id is read from the environment
  and the update loop is started with it. The digit scanning of the
  environment string is taken as done: `Decimal` is either a malformed
  string or the integer its digits denote.
 */
module Startup {
  import opened Wrappers
  import opened TelegramApi
  import opened Messages
  import Router
  import BotLoop

  datatype Decimal = Malformed | Value(n: int)

  const Int32Min := -0x8000_0000
  const Int32Max := 0x7fff_ffff
  const Int64Min := -0x8000_0000_0000_0000
  const Int64Max := 0x7fff_ffff_ffff_ffff

  /**
    The integer parse with its error ignored: a malformed string gives 0 and
    a value outside [lo, hi] gives the bound on its side.
   */
  function ParseIntIgnoringError(d: Decimal, lo: int, hi: int): (v: int)
    requires lo <= 0 <= hi
    ensures lo <= v <= hi
    ensures d.Malformed? ==> v == 0
    ensures d.Value? && lo <= d.n <= hi ==> v == d.n
    ensures d.Value? && d.n < lo ==> v == lo
    ensures d.Value? && d.n > hi ==> v == hi
  {
    match d
    case Malformed => 0
    case Value(n) => if n < lo then lo else if n > hi then hi else n
  }

  /** The chat id as configured by the source: parsed with a 32-bit size. */
  function ConfiguredChatIdAsWritten(d: Decimal): int {
    ParseIntIgnoringError(d, Int32Min, Int32Max)
  }

  /** The chat id parsed at the width the library uses for chat ids (64 bits). */
  function ConfiguredChatId(d: Decimal): int {
    ParseIntIgnoringError(d, Int64Min, Int64Max)
  }

  /** A message from the chat `chatId`. */
  function MessageFrom(chatId: int, text: string): Update {
    Update(Some(Message(Chat(chatId), text)), None)
  }

  /**
    As written, a chat whose id needs more than 32 bits can never be the
    operator chat: the configured id is clamped, so every message from the
    chat named in the configuration is refused.
   */
  lemma WideChatIdDeniedAsWritten(n: int, text: string, focus: string)
    requires Wide(n)
    ensures Router.Process(MessageFrom(n, text), focus, ConfiguredChatIdAsWritten(Value(n))).err
         == Some(Router.PermissionDenied)
  {
  }

  /** A concrete instance: a supergroup id, the form Telegram gives group chats. */
  lemma SupergroupDeniedAsWritten()
    ensures ConfiguredChatIdAsWritten(Value(-1001234567890)) == Int32Min
    ensures Router.Process(MessageFrom(-1001234567890, "hi"), "r1", ConfiguredChatIdAsWritten(Value(-1001234567890))).err
         == Some(Router.PermissionDenied)
  {
    WideChatIdDeniedAsWritten(-1001234567890, "hi", "r1");
  }

  /** With a 64-bit parse, the configured chat's messages are accepted for every id the library can carry. */
  lemma ConfiguredChatAccepted(n: int, text: string, focus: string)
    requires Int64Min <= n <= Int64Max
    ensures ConfiguredChatId(Value(n)) == n
    ensures Router.Process(MessageFrom(n, text), focus, ConfiguredChatId(Value(n))).err.None?
  {
  }

  /** A chat id that a 32-bit parse cannot hold. */
  predicate Wide(n: int) {
    n < Int32Min || n > Int32Max
  }

  /**
    The relay's update loop with the chat id taken from the environment, as
    the source starts it. When the configured chat has a wide id, the
    operator's messages never get through: nothing is ever published and
    every reply is the zero message of a refusal.
   */
  function StartRelay(chatIdSetting: Decimal, queue: string, incoming: seq<BotLoop.Incoming>): (o: BotLoop.Outcome)
    ensures CountSent(o.trace) == |incoming|
    ensures chatIdSetting.Value? && Wide(chatIdSetting.n) && BotLoop.AllMessagesFrom(incoming, chatIdSetting.n) ==>
      && !BotLoop.Publishes(o.trace)
      && BotLoop.AllRefused(o.trace)
  {
    var chatId := ConfiguredChatIdAsWritten(chatIdSetting);
    BotLoop.RunSendsOncePerUpdate(BotLoop.InitialFocus, chatId, queue, incoming);
    if chatIdSetting.Value? && BotLoop.AllMessagesFrom(incoming, chatIdSetting.n) then
      BotLoop.OneChatRun(BotLoop.InitialFocus, chatId, queue, incoming, chatIdSetting.n);
      BotLoop.Run(chatId, queue, incoming)
    else
      BotLoop.Run(chatId, queue, incoming)
  }

  /**
    The loop started with the 64-bit parse: for every chat id the library
    can carry, the configured chat's messages are never refused.
   */
  function StartRelayCorrected(chatIdSetting: Decimal, queue: string, incoming: seq<BotLoop.Incoming>): (o: BotLoop.Outcome)
    ensures CountSent(o.trace) == |incoming|
    ensures chatIdSetting.Value? && Int64Min <= chatIdSetting.n <= Int64Max
            && BotLoop.AllMessagesFrom(incoming, chatIdSetting.n) ==>
      BotLoop.NoneRefused(o.trace)
  {
    var chatId := ConfiguredChatId(chatIdSetting);
    BotLoop.RunSendsOncePerUpdate(BotLoop.InitialFocus, chatId, queue, incoming);
    if chatIdSetting.Value? && BotLoop.AllMessagesFrom(incoming, chatIdSetting.n) then
      BotLoop.OneChatRun(BotLoop.InitialFocus, chatId, queue, incoming, chatIdSetting.n);
      BotLoop.Run(chatId, queue, incoming)
    else
      BotLoop.Run(chatId, queue, incoming)
  }
}
