/**
 * What `Queue\Queue\Processor` promises per branch: for each kind of callable
 * and each kind of callee outcome, the disposition, the event trace, the log
 * line and the calls made.
 */
module ProcessorProperties {
  import opened Wrappers
  import opened Interop
  import opened Job
  import opened QueueProcessor

  /** `sub` occurs somewhere in `s`. */
  ghost predicate Contains(s: string, sub: string)
  {
    exists i :: 0 <= i <= |s| && sub <= s[i..]
  }

  /** An invalid callable is rejected at once: `[seen, invalid]`, and `processMessage` is never entered. */
  lemma InvalidCallableRejected(p: Processor, qm: QueueMessage, ctx: Context,
                                isCallable: CallableRef -> bool, invoke: (Target, Message) -> Outcome)
    requires !isCallable(qm.callable)
    ensures var r := Process(p, qm, ctx, isCallable, invoke);
      && r.disposition == Reject
      && r.events == [MessageSeen(qm), MessageInvalid(Message(qm, ctx))]
      && r.log == [Debug(INVALID_LOG)]
      && r.calls == []
  {
  }

  /**
   * A callee that throws gets the message requeued: `[seen, start, exception]`,
   * the exception travels with the event, and the one log line quotes its message.
   */
  lemma ExceptionRequeued(p: Processor, qm: QueueMessage, ctx: Context,
                          isCallable: CallableRef -> bool, invoke: (Target, Message) -> Outcome,
                          t: Target, e: Exception)
    requires isCallable(qm.callable)
    requires ShapeTarget(qm.callable) == Some(t)
    requires invoke(t, Message(qm, ctx)) == Raised(e)
    ensures var r := Process(p, qm, ctx, isCallable, invoke);
      && r.disposition == Requeue
      && r.events == [MessageSeen(qm), MessageStart(Message(qm, ctx)), MessageException(Message(qm, ctx), e)]
      && |r.log| == 1 && Contains(r.log[0].text, e.message)
      && r.calls == [Call(t, Message(qm, ctx))]
  {
    var text := EXCEPTION_LOG_PREFIX + e.message;
    var k := |EXCEPTION_LOG_PREFIX|;
    assert text[k..] == e.message;
  }

  /** A callee that returns `null` gets the message acknowledged: `[seen, start, success]`. */
  lemma NullResponseAcked(p: Processor, qm: QueueMessage, ctx: Context,
                          isCallable: CallableRef -> bool, invoke: (Target, Message) -> Outcome,
                          t: Target)
    requires isCallable(qm.callable)
    requires ShapeTarget(qm.callable) == Some(t)
    requires invoke(t, Message(qm, ctx)) == Returned(Null)
    ensures var r := Process(p, qm, ctx, isCallable, invoke);
      && r.disposition == Ack
      && r.events == [MessageSeen(qm), MessageStart(Message(qm, ctx)), MessageSuccess(Message(qm, ctx))]
      && r.log == [Debug(SUCCESS_LOG)]
      && r.calls == [Call(t, Message(qm, ctx))]
  {
  }

  /** A callee that returns exactly ACK gets the message acknowledged: `[seen, start, success]`. */
  lemma AckResponseAcked(p: Processor, qm: QueueMessage, ctx: Context,
                         isCallable: CallableRef -> bool, invoke: (Target, Message) -> Outcome,
                         t: Target)
    requires isCallable(qm.callable)
    requires ShapeTarget(qm.callable) == Some(t)
    requires invoke(t, Message(qm, ctx)) == Returned(Str(ACK))
    ensures var r := Process(p, qm, ctx, isCallable, invoke);
      && r.disposition == Ack
      && r.events == [MessageSeen(qm), MessageStart(Message(qm, ctx)), MessageSuccess(Message(qm, ctx))]
      && r.log == [Debug(SUCCESS_LOG)]
      && r.calls == [Call(t, Message(qm, ctx))]
  {
  }

  /** A callee that returns exactly REJECT gets the message rejected: `[seen, start, reject]`. */
  lemma RejectResponseRejected(p: Processor, qm: QueueMessage, ctx: Context,
                               isCallable: CallableRef -> bool, invoke: (Target, Message) -> Outcome,
                               t: Target)
    requires isCallable(qm.callable)
    requires ShapeTarget(qm.callable) == Some(t)
    requires invoke(t, Message(qm, ctx)) == Returned(Str(REJECT))
    ensures var r := Process(p, qm, ctx, isCallable, invoke);
      && r.disposition == Reject
      && r.events == [MessageSeen(qm), MessageStart(Message(qm, ctx)), MessageReject(Message(qm, ctx))]
      && r.log == [Debug(REJECT_LOG)]
      && r.calls == [Call(t, Message(qm, ctx))]
  {
  }

  /**
   * Any other returned value (REQUEUE itself, any other string, any non-string)
   * gets the message requeued: `[seen, start, failure]`.
   */
  lemma OtherResponseRequeued(p: Processor, qm: QueueMessage, ctx: Context,
                              isCallable: CallableRef -> bool, invoke: (Target, Message) -> Outcome,
                              t: Target, v: Value)
    requires isCallable(qm.callable)
    requires ShapeTarget(qm.callable) == Some(t)
    requires invoke(t, Message(qm, ctx)) == Returned(v)
    requires v != Null && v != Str(ACK) && v != Str(REJECT)
    ensures var r := Process(p, qm, ctx, isCallable, invoke);
      && r.disposition == Requeue
      && r.events == [MessageSeen(qm), MessageStart(Message(qm, ctx)), MessageFailure(Message(qm, ctx))]
      && r.log == [Debug(FAILURE_LOG)]
      && r.calls == [Call(t, Message(qm, ctx))]
  {
  }

  /**
   * A callable that passes `is_callable` but is neither a two-element array nor
   * a string (a Closure, an invocable object) is never called, and the message
   * is requeued: `[seen, start, failure]`.
   */
  lemma UnhandledShapeRequeued(p: Processor, qm: QueueMessage, ctx: Context,
                               isCallable: CallableRef -> bool, invoke: (Target, Message) -> Outcome)
    requires isCallable(qm.callable)
    requires !IsMethodShape(qm.callable) && !qm.callable.Name?
    ensures var r := Process(p, qm, ctx, isCallable, invoke);
      && r.disposition == Requeue
      && r.events == [MessageSeen(qm), MessageStart(Message(qm, ctx)), MessageFailure(Message(qm, ctx))]
      && r.log == [Debug(FAILURE_LOG)]
      && r.calls == []
  {
  }

  /**
   * The disposition, classified by its inputs in both directions: REJECT exactly
   * for an invalid callable or a REJECT response, ACK exactly for a `null` or ACK
   * response, REQUEUE for everything else (an exception, an unhandled shape, any
   * other response).
   */
  lemma DispositionDecision(p: Processor, qm: QueueMessage, ctx: Context,
                            isCallable: CallableRef -> bool, invoke: (Target, Message) -> Outcome)
    ensures var r := Process(p, qm, ctx, isCallable, invoke);
      var t := ShapeTarget(qm.callable);
      var called := isCallable(qm.callable) && t.Some?;
      && (r.disposition == Reject <==>
            !isCallable(qm.callable) || (called && invoke(t.value, Message(qm, ctx)) == Returned(Str(REJECT))))
      && (r.disposition == Ack <==>
            called && invoke(t.value, Message(qm, ctx)) in {Returned(Null), Returned(Str(ACK))})
      && (r.disposition == Requeue <==>
            isCallable(qm.callable) &&
            (t.None? || invoke(t.value, Message(qm, ctx)) !in {Returned(Null), Returned(Str(ACK)), Returned(Str(REJECT))}))
  {
  }

  /** PHP's `is_callable` accepts an array only when it has exactly two elements. */
  ghost predicate RespectsArrayArity(isCallable: CallableRef -> bool)
  {
    forall c :: isCallable(c) && c.Arr? ==> |c.items| == 2
  }

  /**
   * With an `is_callable` that behaves like PHP's on arrays, a valid message is
   * left uncalled only when its callable is neither an array nor a string.
   */
  lemma UncalledOnlyWhenOpaque(p: Processor, qm: QueueMessage, ctx: Context,
                               isCallable: CallableRef -> bool, invoke: (Target, Message) -> Outcome)
    requires RespectsArrayArity(isCallable)
    requires isCallable(qm.callable)
    ensures var r := Process(p, qm, ctx, isCallable, invoke);
      r.calls == [] <==> qm.callable.Opaque?
  {
  }

  /**
   * The default logger: a processor built without a logger sends its one debug
   * line to a `NullLogger`, which keeps nothing; an injected logger is handed that line.
   */
  lemma LoggerReceivesDebugLine(logger: Option<Logger>, qm: QueueMessage, ctx: Context,
                             isCallable: CallableRef -> bool, invoke: (Target, Message) -> Outcome)
    ensures var r := Process(NewProcessor(logger), qm, ctx, isCallable, invoke);
      && (logger.None? ==> r.recorded == [])
      && (logger.Some? && logger.value.Injected? ==> |r.recorded| == 1 && r.recorded == r.log)
  {
  }

  /**
   * An ACK or REJECT response reaches the transport unchanged, and a `null`
   * response reaches it as ACK: the string `process` returns is the callee's.
   */
  lemma ResponsePassesThrough(p: Processor, qm: QueueMessage, ctx: Context,
                              isCallable: CallableRef -> bool, invoke: (Target, Message) -> Outcome,
                              t: Target, v: Value)
    requires isCallable(qm.callable)
    requires ShapeTarget(qm.callable) == Some(t)
    requires invoke(t, Message(qm, ctx)) == Returned(v)
    requires v in {Null, Str(ACK), Str(REJECT)}
    ensures Process(p, qm, ctx, isCallable, invoke).disposition.ToValue() == (if v == Null then Str(ACK) else v)
  {
  }
}
