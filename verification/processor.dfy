/**
 * The consumer-side dispatch decision of `Queue\Queue\Processor`: validate the
 * decoded callable, invoke it, interpret its response and map the outcome to
 * one disposition, emitting lifecycle events and debug log lines on the way.
 *
 * `is_callable` and the callee are parameters: `isCallable` answers PHP's
 * `is_callable` for a callable reference, `invoke` is what calling a target
 * with the message does (a returned value or a thrown `Exception`).
 */
module QueueProcessor {
  import opened Wrappers
  import opened Interop
  import opened Job

  /** A thrown `\Exception`, reduced to its message. */
  datatype Exception = Exception(message: string)

  /** What a callee does when called: it returns a value or throws an `Exception`. */
  datatype Outcome = Returned(value: Value) | Raised(exception: Exception)

  /**
   * What `processMessage` calls: a method on a fresh instance of a class
   * (`new $className()` then `->$methodName(...)`) or a function by name
   * (`call_user_func`).
   */
  datatype Target = MethodTarget(className: Value, methodName: Value) | FunctionTarget(name: string)

  /** One call of a target, with the message it was passed. */
  datatype Call = Call(target: Target, argument: Message)

  /** The events the processor dispatches, each with its payload. */
  datatype Event =
    | MessageSeen(queueMessage: QueueMessage)
    | MessageInvalid(message: Message)
    | MessageStart(message: Message)
    | MessageException(message: Message, exception: Exception)
    | MessageSuccess(message: Message)
    | MessageReject(message: Message)
    | MessageFailure(message: Message)
  {
    /** The event name passed to `dispatchEvent`. */
    function Name(): string
    {
      match this
      case MessageSeen(_) => "Processor.message.seen"
      case MessageInvalid(_) => "Processor.message.invalid"
      case MessageStart(_) => "Processor.message.start"
      case MessageException(_, _) => "Processor.message.exception"
      case MessageSuccess(_) => "Processor.message.success"
      case MessageReject(_) => "Processor.message.reject"
      case MessageFailure(_) => "Processor.message.failure"
    }

    /** The events after which `process` returns. */
    predicate IsTerminal()
    {
      !(MessageSeen? || MessageStart?)
    }

    /** The disposition `process` returns right after a terminal event. */
    function Returns(): (r: Option<Disposition>)
      ensures r.Some? <==> IsTerminal()
    {
      match this
      case MessageInvalid(_) => Some(Reject)
      case MessageException(_, _) => Some(Requeue)
      case MessageSuccess(_) => Some(Ack)
      case MessageReject(_) => Some(Reject)
      case MessageFailure(_) => Some(Requeue)
      case _ => None
    }
  }

  /** A `debug` call on the processor's logger. */
  datatype LogLine = Debug(text: string)

  const INVALID_LOG: string := "Invalid callable for message. Rejecting message from queue."
  const EXCEPTION_LOG_PREFIX: string := "Message encountered exception: "
  const SUCCESS_LOG: string := "Message processed sucessfully"
  const REJECT_LOG: string := "Message processed with rejection"
  const FAILURE_LOG: string := "Message processed with failure, requeuing"

  /** A PSR logger: the `NullLogger` default, or one injected by the caller. */
  datatype Logger = NullLogger | Injected(name: string)

  /** The debug lines a logger is handed for recording: a `NullLogger` drops them all. */
  function Recorded(logger: Logger, lines: seq<LogLine>): seq<LogLine>
  {
    match logger
    case NullLogger => []
    case Injected(_) => lines
  }

  datatype Processor = Processor(logger: Logger)

  /** The constructor: an injected logger is used as given, no logger means a `NullLogger`. */
  function NewProcessor(logger: Option<Logger>): (p: Processor)
    ensures logger.Some? ==> p.logger == logger.value
    ensures logger.None? ==> forall lines :: Recorded(p.logger, lines) == []
  {
    match logger
    case Some(l) => Processor(l)
    case None => Processor(NullLogger)
  }

  /** What `processMessage` did: the calls it made and how it ended. */
  datatype Step = Step(calls: seq<Call>, outcome: Outcome)

  /**
   * What `process` did: its return value, the events, the debug lines sent to
   * the logger, the lines a recording logger was handed, and the callee calls.
   */
  datatype Run = Run(disposition: Disposition, events: seq<Event>, log: seq<LogLine>,
                     recorded: seq<LogLine>, calls: seq<Call>)

  /** The shape test of `processMessage`: a two-element array is a method, a string a function. */
  predicate IsMethodShape(c: CallableRef)
  {
    c.Arr? && |c.items| == 2
  }

  /** The target `processMessage` calls for a callable reference, if its shape is one it handles. */
  function ShapeTarget(c: CallableRef): (t: Option<Target>)
    ensures t.Some? <==> IsMethodShape(c) || c.Name?
    ensures IsMethodShape(c) ==> t == Some(MethodTarget(c.items[0], c.items[1]))
    ensures c.Name? ==> t == Some(FunctionTarget(c.fn))
  {
    if IsMethodShape(c) then Some(MethodTarget(c.items[0], c.items[1]))
    else if c.Name? then Some(FunctionTarget(c.fn))
    else None
  }

  /** A `null` response counts as an acknowledgement; anything else, thrown or returned, passes through. */
  function Normalise(o: Outcome): (r: Outcome)
    ensures r != Returned(Null)
    ensures o == Returned(Null) ==> r == Returned(Str(ACK))
    ensures o != Returned(Null) ==> r == o
  {
    if o == Returned(Null) then Returned(Str(ACK)) else o
  }

  /**
   * `processMessage`: calls the target its callable's shape selects, at most
   * once, and never answers `null`.
   */
  function ProcessMessage(m: Message, invoke: (Target, Message) -> Outcome): (r: Step)
    ensures r.outcome != Returned(Null)
    ensures IsMethodShape(m.GetCallable()) ==>
      r.calls == [Call(MethodTarget(m.GetCallable().items[0], m.GetCallable().items[1]), m)]
    ensures m.GetCallable().Name? ==> r.calls == [Call(FunctionTarget(m.GetCallable().fn), m)]
    ensures !IsMethodShape(m.GetCallable()) && !m.GetCallable().Name? ==>
      r.calls == [] && r.outcome == Returned(Str(REQUEUE))
    ensures r.outcome.Raised? ==> |r.calls| == 1 && invoke(r.calls[0].target, m) == r.outcome
    ensures r.outcome.Returned? && r.calls != [] ==>
      var o := invoke(r.calls[0].target, m);
      (o == Returned(Null) && r.outcome == Returned(Str(ACK))) || o == r.outcome
  {
    match ShapeTarget(m.GetCallable())
    case None => Step([], Returned(Str(REQUEUE)))
    case Some(t) => Step([Call(t, m)], Normalise(invoke(t, m)))
  }

  /** The log line written when the callee throws: the prefix followed by the exception's message. */
  function ExceptionLog(e: Exception): LogLine
  {
    Debug(EXCEPTION_LOG_PREFIX + e.message)
  }

  /**
   * `process`: reject an invalid callable, requeue on an exception, and map the
   * response strictly: ACK acknowledges, REJECT rejects, anything else requeues.
   */
  function Process(p: Processor, queueMessage: QueueMessage, context: Context,
                   isCallable: CallableRef -> bool, invoke: (Target, Message) -> Outcome): (r: Run)
    ensures |r.events| >= 2 && r.events[0] == MessageSeen(queueMessage)
    ensures r.events[|r.events| - 1].Returns() == Some(r.disposition)
    ensures forall i :: 0 <= i < |r.events| - 1 ==> !r.events[i].IsTerminal()
    ensures MessageStart(Message(queueMessage, context)) in r.events <==> isCallable(queueMessage.callable)
    ensures |r.log| == 1
    ensures p.logger.NullLogger? ==> r.recorded == []
    ensures p.logger.Injected? ==> r.recorded == r.log
    ensures |r.calls| <= 1
    ensures r.calls != [] ==> isCallable(queueMessage.callable)
  {
    var m := Message(queueMessage, context);
    var seen := MessageSeen(queueMessage);
    if !isCallable(m.GetCallable()) then
      var log := [Debug(INVALID_LOG)];
      Run(Reject, [seen, MessageInvalid(m)], log, Recorded(p.logger, log), [])
    else
      var step := ProcessMessage(m, invoke);
      match step.outcome
      case Raised(e) =>
        var log := [ExceptionLog(e)];
        Run(Requeue, [seen, MessageStart(m), MessageException(m, e)], log, Recorded(p.logger, log), step.calls)
      case Returned(response) =>
        if response == Str(ACK) then
          var log := [Debug(SUCCESS_LOG)];
          Run(Ack, [seen, MessageStart(m), MessageSuccess(m)], log, Recorded(p.logger, log), step.calls)
        else if response == Str(REJECT) then
          var log := [Debug(REJECT_LOG)];
          Run(Reject, [seen, MessageStart(m), MessageReject(m)], log, Recorded(p.logger, log), step.calls)
        else
          var log := [Debug(FAILURE_LOG)];
          Run(Requeue, [seen, MessageStart(m), MessageFailure(m)], log, Recorded(p.logger, log), step.calls)
  }
}
