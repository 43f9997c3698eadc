/**
  The router's transition table stated on its own terms: an abstract focus
  state, the three kinds of chat event, and the action each transition
  performs. `ProcessRefinesTable` ties the router to this table.
 */
module RouterSpec {
  import opened Wrappers
  import opened TelegramApi
  import opened Messages
  import Router

  datatype FocusState = Unfocused | Focused(originId: string)

  datatype ChatEvent =
    | TextMessage(fromAuthorizedChat: bool, text: string)
    | FocusSelection(token: string)
    | NoEvent

  datatype Action =
    | DenyPermission
    | AnswerNoOneToWrite
    | ForwardReply(targetId: string, body: string)
    | CloseDialog
    | OpenDialog(originId: string)
    | RejectEmpty

  /** A focused state never names the reserved token. */
  predicate ValidState(s: FocusState) {
    s.Focused? ==> s.originId != Router.NoFocus
  }

  /** The transition table: next state and action for an event in a state. */
  function Next(s: FocusState, e: ChatEvent): (next: (FocusState, Action))
    ensures ValidState(s) ==> ValidState(next.0)
    ensures !e.FocusSelection? ==> next.0 == s
  {
    match e
    case TextMessage(authorized, text) =>
      if !authorized then (s, DenyPermission)
      else if s.Unfocused? then (s, AnswerNoOneToWrite)
      else (s, ForwardReply(s.originId, text))
    case FocusSelection(token) =>
      if token == Router.NoFocus then (Unfocused, CloseDialog) else (Focused(token), OpenDialog(token))
    case NoEvent => (s, RejectEmpty)
  }

  /** The abstract state a focus cell stands for. */
  function Abstract(focus: string): (s: FocusState)
    ensures ValidState(s)
    ensures s.Unfocused? <==> focus == Router.NoFocus
  {
    if focus == Router.NoFocus then Unfocused else Focused(focus)
  }

  /** The focus cell that stores an abstract state. */
  function Concrete(s: FocusState): string {
    match s
    case Unfocused => Router.NoFocus
    case Focused(id) => id
  }

  lemma AbstractConcrete(s: FocusState, focus: string)
    ensures ValidState(s) ==> Abstract(Concrete(s)) == s
    ensures Concrete(Abstract(focus)) == focus
  {
  }

  /** What kind of event an update is for a relay configured with `chatId`. */
  function Classify(update: Update, chatId: int): (e: ChatEvent)
    ensures e.NoEvent? <==> update.message.None? && update.callbackQuery.None?
    ensures e.FocusSelection? <==> Router.IsSelection(update)
    ensures e.TextMessage? <==> update.message.Some?
    ensures e.TextMessage? ==>
      e.fromAuthorizedChat == (update.message.value.chat.id == chatId) && e.text == update.message.value.text
    ensures e.FocusSelection? ==> e.token == update.callbackQuery.value.data
  {
    if update.message.Some? then
      TextMessage(update.message.value.chat.id == chatId, update.message.value.text)
    else if update.callbackQuery.Some? then
      FocusSelection(update.callbackQuery.value.data)
    else NoEvent
  }

  /** The observable outputs of a step that perform action `a` for chat `chatId`. */
  predicate Performs(r: Router.StepResult, a: Action, chatId: int) {
    match a
    case DenyPermission =>
      r.err == Some(Router.PermissionDenied) && r.sent.None? && r.reply == ZeroMessage
    case AnswerNoOneToWrite =>
      r.err.None? && r.sent.None? && r.reply == NewMessage(chatId, Router.NoOneToWrite)
    case ForwardReply(targetId, body) =>
      r.err.None? && r.sent == Some(SendResponse(targetId, body))
      && r.reply == NewMessage(chatId, Router.RepliedPrefix + targetId)
    case CloseDialog =>
      r.err.None? && r.sent.None? && r.reply.text == Router.ClosedDialog
    case OpenDialog(originId) =>
      r.err.None? && r.sent.None? && r.reply.text == Router.OpenedPrefix + originId
    case RejectEmpty =>
      r.err == Some(Router.EmptyMessage) && r.sent.None? && r.reply == ZeroMessage
  }

  /** Every step of the router moves the abstract state and acts as the table says. */
  lemma ProcessRefinesTable(update: Update, focus: string, chatId: int)
    ensures var r := Router.Process(update, focus, chatId);
      var next := Next(Abstract(focus), Classify(update, chatId));
      Abstract(r.focus) == next.0 && Performs(r, next.1, chatId)
  {
  }

  /** A step's outputs perform one action only: different actions are told apart by the outputs. */
  lemma PerformsDeterminesAction(r: Router.StepResult, a: Action, b: Action, chatId: int)
    requires Performs(r, a, chatId) && Performs(r, b, chatId)
    ensures a == b
  {
    match a
    case CloseDialog =>
      if b.OpenDialog? { Router.OpenedIsNotClosed(b.originId); }
    case OpenDialog(id) =>
      Router.OpenedIsNotClosed(id);
      if b.OpenDialog? {
        assert id == r.reply.text[|Router.OpenedPrefix|..] == b.originId;
      }
    case ForwardReply(t, body) =>
      if b.ForwardReply? {
        assert t == r.reply.text[|Router.RepliedPrefix|..] == b.targetId;
      }
    case _ =>
  }
}
