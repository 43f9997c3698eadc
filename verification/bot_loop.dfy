/**
  The chat event loop (handleBot): the focus starts as "none" and each update
  from the stream is routed, its reply handed to the queue sender if any,
  the router's error alerted, and the chat reply sent. The transports'
  answers for each iteration are part of the input.
 */
module BotLoop {
  import opened Wrappers
  import opened TelegramApi
  import opened Messages
  import Router
  import Publisher

  const ProcessorErrorContext := "Get update telegram processor error"
  const SendErrorContext := "Send message to telegram error"

  /** The focus when the loop starts. */
  const InitialFocus := Router.NoFocus

  /** One update from the stream with the transports' answers during its iteration. */
  datatype Incoming = Incoming(update: Update, publishError: Option<string>, sendError: Option<string>)

  /** The focus after a run and everything the run did, in order. */
  datatype Outcome = Outcome(focus: string, trace: seq<Effect>)

  function ErrorText(err: Option<Error>): Option<string> {
    match err
    case None => None
    case Some(e) => Some(e.message)
  }

  /** A published envelope goes to `queue`, is tagged as a bot response, and answers a real sender. */
  predicate TaggedReply(e: Effect, queue: string) {
    e.Published? ==>
      && e.publication.routingKey == queue
      && Publisher.Unwrap(e.publication.body).Some?
      && e.publication.body.Data.ID != Router.NoFocus
  }

  predicate AllTagged(trace: seq<Effect>, queue: string) {
    forall k :: 0 <= k < |trace| ==> TaggedReply(trace[k], queue)
  }

  predicate Publishes(trace: seq<Effect>) {
    exists k :: 0 <= k < |trace| && trace[k].Published?
  }

  /** The effects of one pass once the router has produced `r`: publish (inside the router), alert on the router's error, send the reply, alert on a failed send. */
  function PassEffects(r: Router.StepResult, queue: string, incoming: Incoming): (trace: seq<Effect>)
    ensures CountSent(trace) == 1
  {
    var published := if r.sent.Some? then Publisher.RabbitSend(queue, r.sent.value, incoming.publishError) else [];
    var alert := LogOnError(ErrorText(r.err), ProcessorErrorContext);
    var sendAlert := LogOnError(incoming.sendError, SendErrorContext);
    CountSentAppend(published, alert);
    CountSentAppend(published + alert, [Sent(r.reply)]);
    CountSentAppend(published + alert + [Sent(r.reply)], sendAlert);
    assert CountSent([Sent(r.reply)]) == 1 by { assert [Sent(r.reply)][..0] == []; }
    published + alert + [Sent(r.reply)] + sendAlert
  }

  /**
    The alerts of one pass, in order: a failed publish, the router's error,
    a failed send; one for each error that occurred and no other.
   */
  lemma PassAlerts(r: Router.StepResult, queue: string, incoming: Incoming)
    ensures AlertTexts(PassEffects(r, queue, incoming))
         == (if r.sent.Some? && incoming.publishError.Some?
             then [Publisher.PublishErrorContext + ": " + incoming.publishError.value] else [])
          + (if r.err.Some? then [ProcessorErrorContext + ": " + r.err.value.message] else [])
          + (if incoming.sendError.Some? then [SendErrorContext + ": " + incoming.sendError.value] else [])
  {
    var published := if r.sent.Some? then Publisher.RabbitSend(queue, r.sent.value, incoming.publishError) else [];
    var alert := LogOnError(ErrorText(r.err), ProcessorErrorContext);
    var sendAlert := LogOnError(incoming.sendError, SendErrorContext);
    PublishAlerts(r, queue, incoming);
    AlertTextsOfLog(ErrorText(r.err), ProcessorErrorContext);
    AlertTextsOfLog(incoming.sendError, SendErrorContext);
    AlertsAroundSend(published + alert, r.reply, sendAlert);
    AlertTextsAppend(published, alert);
  }

  /** The alert of the publishing part of a pass: one exactly when a publish happened and failed. */
  lemma PublishAlerts(r: Router.StepResult, queue: string, incoming: Incoming)
    ensures AlertTexts(if r.sent.Some? then Publisher.RabbitSend(queue, r.sent.value, incoming.publishError) else [])
         == if r.sent.Some? && incoming.publishError.Some?
            then [Publisher.PublishErrorContext + ": " + incoming.publishError.value] else []
  {
  }

  /** One pass of the loop body. */
  function Iteration(focus: string, chatId: int, queue: string, incoming: Incoming): (o: Outcome)
    ensures o.focus == Router.Process(incoming.update, focus, chatId).focus
    ensures CountSent(o.trace) == 1
  {
    var r := Router.Process(incoming.update, focus, chatId);
    Outcome(r.focus, PassEffects(r, queue, incoming))
  }

  /**
    What one pass does besides moving the focus: it sends the router's reply
    and nothing else, and publishes exactly when the router hands over a
    reply, that reply, tagged, to the queue.
   */
  lemma PassEffectsShape(r: Router.StepResult, queue: string, incoming: Incoming)
    requires r.sent.Some? ==> r.sent.value.ID != Router.NoFocus
    ensures var trace := PassEffects(r, queue, incoming);
      && Sent(r.reply) in trace
      && (forall k :: 0 <= k < |trace| && trace[k].Sent? ==> trace[k].message == r.reply)
      && (Publishes(trace) <==> r.sent.Some?)
      && (forall k :: 0 <= k < |trace| && trace[k].Published? ==>
            Publisher.Unwrap(trace[k].publication.body) == r.sent)
      && AllTagged(trace, queue)
  {
    var alert := LogOnError(ErrorText(r.err), ProcessorErrorContext);
    var sendAlert := LogOnError(incoming.sendError, SendErrorContext);
    if r.sent.Some? {
      var published := Publisher.RabbitSend(queue, r.sent.value, incoming.publishError);
      PublishedPassShape(published, alert, r.reply, sendAlert, r.sent.value, queue);
    } else {
      TraceLayout([], alert, r.reply, sendAlert);
      assert PassEffects(r, queue, incoming) == [] + alert + [Sent(r.reply)] + sendAlert;
    }
  }

  /** A pass that publishes: the sender's publication comes first and is the only one. */
  lemma PublishedPassShape(published: seq<Effect>, alert: seq<Effect>, reply: MessageConfig, sendAlert: seq<Effect>,
                           message: SendResponse, queue: string)
    requires |published| >= 1 && published[0].Published?
    requires published[0].publication.routingKey == queue
    requires Publisher.Unwrap(published[0].publication.body) == Some(message)
    requires message.ID != Router.NoFocus
    requires forall k :: 1 <= k < |published| ==> published[k].Alerted?
    requires forall k :: 0 <= k < |alert| ==> alert[k].Alerted?
    requires forall k :: 0 <= k < |sendAlert| ==> sendAlert[k].Alerted?
    ensures var trace := published + alert + [Sent(reply)] + sendAlert;
      && Sent(reply) in trace
      && (forall k :: 0 <= k < |trace| && trace[k].Sent? ==> trace[k].message == reply)
      && Publishes(trace)
      && (forall k :: 0 <= k < |trace| && trace[k].Published? ==> k == 0)
      && (forall k :: 0 <= k < |trace| && trace[k].Published? ==>
            Publisher.Unwrap(trace[k].publication.body) == Some(message))
      && AllTagged(trace, queue)
  {
    var single := [published[0]];
    var tail := published[1..];
    assert published == single + tail;
    TraceLayout(single, tail + alert, reply, sendAlert);
    var trace := published + alert + [Sent(reply)] + sendAlert;
    assert trace == single + (tail + alert) + [Sent(reply)] + sendAlert;
    assert trace[0].Published?;
  }

  /** The same for a whole pass of the loop body. */
  lemma IterationEffects(focus: string, chatId: int, queue: string, incoming: Incoming)
    ensures var r := Router.Process(incoming.update, focus, chatId);
      var trace := Iteration(focus, chatId, queue, incoming).trace;
      && Sent(r.reply) in trace
      && (forall k :: 0 <= k < |trace| && trace[k].Sent? ==> trace[k].message == r.reply)
      && (Publishes(trace) <==> r.sent.Some?)
      && AllTagged(trace, queue)
  {
    PassEffectsShape(Router.Process(incoming.update, focus, chatId), queue, incoming);
  }

  /** The loop over `incoming` from the focus `focus`, one iteration per update in order. */
  function RunFrom(focus: string, chatId: int, queue: string, incoming: seq<Incoming>): Outcome
    decreases |incoming|
  {
    if |incoming| == 0 then Outcome(focus, [])
    else
      var before := RunFrom(focus, chatId, queue, incoming[..|incoming| - 1]);
      var step := Iteration(before.focus, chatId, queue, incoming[|incoming| - 1]);
      Outcome(step.focus, before.trace + step.trace)
  }

  /** The loop as started by the relay. */
  function Run(chatId: int, queue: string, incoming: seq<Incoming>): Outcome {
    RunFrom(InitialFocus, chatId, queue, incoming)
  }

  predicate NoSelection(incoming: seq<Incoming>) {
    forall i :: 0 <= i < |incoming| ==> !Router.IsSelection(incoming[i].update)
  }

  /** Position `i` holds the last callback query of the stream (one that is not shadowed by a message). */
  predicate LastSelectionAt(incoming: seq<Incoming>, i: int) {
    && 0 <= i < |incoming|
    && Router.IsSelection(incoming[i].update)
    && forall j :: i < j < |incoming| ==> !Router.IsSelection(incoming[j].update)
  }

  /** The focus after a run is the focus after its last iteration. */
  lemma RunFromFocus(focus: string, chatId: int, queue: string, incoming: seq<Incoming>)
    requires |incoming| > 0
    ensures var before := RunFrom(focus, chatId, queue, incoming[..|incoming| - 1]);
      RunFrom(focus, chatId, queue, incoming).focus
        == Router.Process(incoming[|incoming| - 1].update, before.focus, chatId).focus
  {
  }

  /** Without a callback query the focus stays where it started. */
  lemma {:induction false} RunFocusWithoutSelection(focus: string, chatId: int, queue: string, incoming: seq<Incoming>)
    requires NoSelection(incoming)
    ensures RunFrom(focus, chatId, queue, incoming).focus == focus
    decreases |incoming|
  {
    if |incoming| > 0 {
      var n := |incoming| - 1;
      assert NoSelection(incoming[..n]);
      RunFocusWithoutSelection(focus, chatId, queue, incoming[..n]);
      RunFromFocus(focus, chatId, queue, incoming);
    }
  }

  /** After a run, the focus is the data of the run's last callback query. */
  lemma {:induction false} RunFocusIsLastSelection(focus: string, chatId: int, queue: string, incoming: seq<Incoming>, i: int)
    requires LastSelectionAt(incoming, i)
    ensures RunFrom(focus, chatId, queue, incoming).focus == incoming[i].update.callbackQuery.value.data
    decreases |incoming|
  {
    var n := |incoming| - 1;
    RunFromFocus(focus, chatId, queue, incoming);
    if i < n {
      assert LastSelectionAt(incoming[..n], i);
      RunFocusIsLastSelection(focus, chatId, queue, incoming[..n], i);
    }
  }

  /** The position of the last callback query, found by scanning back from the end. */
  function LastSelectionIndex(incoming: seq<Incoming>): (last: Option<nat>)
    ensures last.None? <==> NoSelection(incoming)
    ensures last.Some? ==> LastSelectionAt(incoming, last.value)
    decreases |incoming|
  {
    if |incoming| == 0 then None
    else if Router.IsSelection(incoming[|incoming| - 1].update) then Some(|incoming| - 1)
    else
      var last := LastSelectionIndex(incoming[..|incoming| - 1]);
      assert forall j :: 0 <= j < |incoming| - 1 ==> incoming[..|incoming| - 1][j] == incoming[j];
      last
  }

  /** The focus after a run started from "none", stated on its own: the last callback's data, or "none". */
  lemma FinalFocus(chatId: int, queue: string, incoming: seq<Incoming>)
    ensures Run(chatId, queue, incoming).focus
         == match LastSelectionIndex(incoming)
            case None => Router.NoFocus
            case Some(i) => incoming[i].update.callbackQuery.value.data
  {
    match LastSelectionIndex(incoming)
    case None => RunFocusWithoutSelection(InitialFocus, chatId, queue, incoming);
    case Some(i) => RunFocusIsLastSelection(InitialFocus, chatId, queue, incoming, i);
  }

  /** Started from "none", the focus is always "none" or a token some callback query carried. */
  lemma FocusIsNoneOrSelected(chatId: int, queue: string, incoming: seq<Incoming>)
    ensures var f := Run(chatId, queue, incoming).focus;
      f == Router.NoFocus
      || exists i :: 0 <= i < |incoming| && Router.IsSelection(incoming[i].update)
                     && incoming[i].update.callbackQuery.value.data == f
  {
    FinalFocus(chatId, queue, incoming);
  }

  /** Every update leads to exactly one chat send. */
  lemma {:induction false} RunSendsOncePerUpdate(focus: string, chatId: int, queue: string, incoming: seq<Incoming>)
    ensures CountSent(RunFrom(focus, chatId, queue, incoming).trace) == |incoming|
    decreases |incoming|
  {
    if |incoming| > 0 {
      var n := |incoming| - 1;
      RunSendsOncePerUpdate(focus, chatId, queue, incoming[..n]);
      var before := RunFrom(focus, chatId, queue, incoming[..n]);
      CountSentAppend(before.trace, Iteration(before.focus, chatId, queue, incoming[n]).trace);
    }
  }

  /** Every publication of any run goes to the queue, tagged, addressed to a real sender. */
  lemma {:induction false} PublicationsAreTaggedReplies(focus: string, chatId: int, queue: string, incoming: seq<Incoming>)
    ensures AllTagged(RunFrom(focus, chatId, queue, incoming).trace, queue)
    decreases |incoming|
  {
    if |incoming| > 0 {
      var n := |incoming| - 1;
      PublicationsAreTaggedReplies(focus, chatId, queue, incoming[..n]);
      var before := RunFrom(focus, chatId, queue, incoming[..n]);
      var step := Iteration(before.focus, chatId, queue, incoming[n]);
      IterationEffects(before.focus, chatId, queue, incoming[n]);
      var trace := before.trace + step.trace;
      forall k | 0 <= k < |trace|
        ensures TaggedReply(trace[k], queue)
      {
        if k >= |before.trace| {
          assert trace[k] == step.trace[k - |before.trace|];
        } else {
          assert trace[k] == before.trace[k];
        }
      }
    }
  }

  /**
    Without a callback query, a run started with no dialog open publishes
    nothing, and every reply is either "no one to write to" or the empty
    message that goes with an error.
   */
  lemma {:induction false} UnfocusedRunNeverPublishes(chatId: int, queue: string, incoming: seq<Incoming>)
    requires NoSelection(incoming)
    ensures var trace := Run(chatId, queue, incoming).trace;
      && !Publishes(trace)
      && forall k :: 0 <= k < |trace| && trace[k].Sent? ==>
           trace[k].message == ZeroMessage || trace[k].message == NewMessage(chatId, Router.NoOneToWrite)
    decreases |incoming|
  {
    if |incoming| > 0 {
      var n := |incoming| - 1;
      var prefix := incoming[..n];
      assert NoSelection(prefix);
      UnfocusedRunNeverPublishes(chatId, queue, prefix);
      RunFocusWithoutSelection(InitialFocus, chatId, queue, prefix);
      var before := Run(chatId, queue, prefix);
      assert before.focus == Router.NoFocus;
      var step := Iteration(before.focus, chatId, queue, incoming[n]);
      IterationEffects(before.focus, chatId, queue, incoming[n]);
      var trace := before.trace + step.trace;
      assert !Publishes(step.trace);
      forall k | 0 <= k < |trace|
        ensures !trace[k].Published?
        ensures trace[k].Sent? ==>
          trace[k].message == ZeroMessage || trace[k].message == NewMessage(chatId, Router.NoOneToWrite)
      {
        if k >= |before.trace| {
          assert trace[k] == step.trace[k - |before.trace|];
        }
      }
    }
  }

  /** No reply in `trace` is the zero message of a refusal. */
  predicate NoneRefused(trace: seq<Effect>) {
    forall k :: 0 <= k < |trace| && trace[k].Sent? ==> trace[k].message != ZeroMessage
  }

  /** Every reply in `trace` is the zero message of a refusal. */
  predicate AllRefused(trace: seq<Effect>) {
    forall k :: 0 <= k < |trace| && trace[k].Sent? ==> trace[k].message == ZeroMessage
  }

  /** Every update of the stream is a text message from chat `c`. */
  predicate AllMessagesFrom(incoming: seq<Incoming>, c: int) {
    forall i :: 0 <= i < |incoming| ==>
      incoming[i].update.message.Some? && incoming[i].update.message.value.chat.id == c
  }

  /** One pass for a message from chat `c`: refused and unpublished unless `c` is the configured chat. */
  lemma OneChatStep(focus: string, chatId: int, queue: string, incoming: Incoming, c: int)
    requires incoming.update.message.Some? && incoming.update.message.value.chat.id == c
    ensures c != chatId ==> !Publishes(Iteration(focus, chatId, queue, incoming).trace)
    ensures c != chatId ==> AllRefused(Iteration(focus, chatId, queue, incoming).trace)
    ensures c == chatId ==> NoneRefused(Iteration(focus, chatId, queue, incoming).trace)
  {
    IterationEffects(focus, chatId, queue, incoming);
    var r := Router.Process(incoming.update, focus, chatId);
    assert c == chatId <==> r.err.None?;
  }

  lemma RefusalsAppend(a: seq<Effect>, b: seq<Effect>)
    ensures !Publishes(a) && !Publishes(b) ==> !Publishes(a + b)
    ensures AllRefused(a) && AllRefused(b) ==> AllRefused(a + b)
    ensures NoneRefused(a) && NoneRefused(b) ==> NoneRefused(a + b)
  {
    forall k | 0 <= k < |a + b|
      ensures (a + b)[k] == if k < |a| then a[k] else b[k - |a|]
    {
    }
  }

  /** The trace of a run is the trace before its last update, then that update's pass. */
  lemma RunFromTrace(focus: string, chatId: int, queue: string, incoming: seq<Incoming>)
    requires |incoming| > 0
    ensures var before := RunFrom(focus, chatId, queue, incoming[..|incoming| - 1]);
      RunFrom(focus, chatId, queue, incoming).trace
        == before.trace + Iteration(before.focus, chatId, queue, incoming[|incoming| - 1]).trace
  {
  }

  /**
    A stream of messages from one chat: if it is not the configured chat,
    nothing is ever published and every reply is the zero message of a
    refusal; if it is, no message is refused.
   */
  lemma {:induction false} OneChatRun(focus: string, chatId: int, queue: string, incoming: seq<Incoming>, c: int)
    requires AllMessagesFrom(incoming, c)
    ensures c != chatId ==> !Publishes(RunFrom(focus, chatId, queue, incoming).trace)
    ensures c != chatId ==> AllRefused(RunFrom(focus, chatId, queue, incoming).trace)
    ensures c == chatId ==> NoneRefused(RunFrom(focus, chatId, queue, incoming).trace)
    decreases |incoming|
  {
    if |incoming| > 0 {
      var n := |incoming| - 1;
      var prefix := incoming[..n];
      assert AllMessagesFrom(prefix, c);
      OneChatRun(focus, chatId, queue, prefix, c);
      var before := RunFrom(focus, chatId, queue, prefix);
      OneChatStep(before.focus, chatId, queue, incoming[n], c);
      RunFromTrace(focus, chatId, queue, incoming);
      RefusalsAppend(before.trace, Iteration(before.focus, chatId, queue, incoming[n]).trace);
    }
  }

  /** The loop of the relay written as the source's for-loop over the update stream. */
  method HandleBot(chatId: int, queue: string, incoming: seq<Incoming>) returns (focus: string, trace: seq<Effect>)
    ensures Outcome(focus, trace) == Run(chatId, queue, incoming)
    ensures CountSent(trace) == |incoming|
    ensures NoSelection(incoming) ==> focus == Router.NoFocus
    ensures !NoSelection(incoming) ==> exists i :: LastSelectionAt(incoming, i) && focus == incoming[i].update.callbackQuery.value.data
  {
    focus := InitialFocus;
    trace := [];
    var i := 0;
    while i < |incoming|
      invariant 0 <= i <= |incoming|
      invariant Outcome(focus, trace) == Run(chatId, queue, incoming[..i])
    {
      assert incoming[..i + 1][..i] == incoming[..i];
      var step := Iteration(focus, chatId, queue, incoming[i]);
      focus := step.focus;
      trace := trace + step.trace;
      i := i + 1;
    }
    assert incoming[..i] == incoming;
    RunSendsOncePerUpdate(InitialFocus, chatId, queue, incoming);
    FinalFocus(chatId, queue, incoming);
  }
}
