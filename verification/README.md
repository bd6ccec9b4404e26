# Queue processor dispatch model

A Dafny model of the consumer-side dispatch decision of `Queue\Queue\Processor`
(a CakePHP queue plugin built on queue-interop). For one delivered message the
processor:

1. dispatches `Processor.message.seen`;
2. builds the adapted `Queue\Job\Message` and asks `is_callable` of its callable;
   if that fails it logs, dispatches `Processor.message.invalid` and returns REJECT;
3. dispatches `Processor.message.start` and calls `processMessage`, which calls
   a two-element array as `new $class()->$method($message)`, a string through
   `call_user_func`, and nothing otherwise (the default response is REQUEUE); a
   `null` response becomes ACK;
4. if the call throws an `Exception`, logs its message, dispatches
   `Processor.message.exception` with the exception and returns REQUEUE;
5. otherwise compares the response strictly: ACK gives `Processor.message.success`
   and ACK, REJECT gives `Processor.message.reject` and REJECT, anything else
   gives `Processor.message.failure` and REQUEUE.

Files:

- `wrappers.dfy`: `Option`.
- `interop.dfy`: the three queue-interop constants (`enqueue.ack`,
  `enqueue.reject`, `enqueue.requeue`), PHP values as strict comparison sees
  them (`Null | Str | Other`), and `Disposition`.
- `job.dfy`: the message adapter view: the callable reference (`Arr(items)`,
  `Name(fn)`, or `Opaque` for every other value), the transport message and
  context.
- `processor.dfy`: events, log lines, logger, `ProcessMessage` and `Process`.
  `Process` is a pure function. It returns the disposition, the events in
  dispatch order, the debug lines sent to the logger, the lines a recording
  logger was handed, and the calls made to the callee. `isCallable` (PHP
  `is_callable`) and `invoke` (constructing and calling the target) are
  parameters.
- `lifecycle.dfy`: the per-message lifecycle as a state machine, written apart
  from `Process`. Its lemmas give the shape of every complete trace and show
  that every run of `Process` is one.
- `properties.dfy`: one lemma per branch, and the disposition classified by
  its inputs.

Three behaviours of `process` worth stating:

- `null` is turned into ACK inside `processMessage`, not in `process`.
- Only `Exception` is caught. PHP `Error` throwables would escape `process`.
- A callable that passes `is_callable` but is neither a two-element array nor
  a string, such as a Closure or an invocable object, is not treated as
  invalid. It is never called, and the message is requeued with a
  `failure` event.

## Model

| member | source | states |
|---|---|---|
| QueueProcessor.Process | src/Queue/Processor.php:44-89 | the trace starts with `seen` of the transport message; its last event is the only terminal one and decides the returned disposition; `start` is dispatched exactly when the callable is invocable; exactly one debug line is logged, which a `NullLogger` drops and an injected logger receives; at most one call is made, and only for an invocable callable |
| QueueProcessor.ProcessMessage | src/Queue/Processor.php:95-114 | a two-element array calls only the method target built from its two items, a string calls only the function target, any other shape calls nothing and yields REQUEUE; the result is never `null`; a thrown exception is the callee's own; a returned result is ACK for a `null` response or the callee's own response |
| QueueProcessor.Normalise | src/Queue/Processor.php:109-111 | a returned `null` becomes ACK, any other outcome passes through unchanged, so the result is never `null` |
| QueueProcessor.ShapeTarget | src/Queue/Processor.php:100-107 | a target is chosen exactly for a two-element array or a string: the array gives the method target built from its first and second items, the string gives the function target of that name |
| QueueProcessor.NewProcessor | src/Queue/Processor.php:31-34 | an injected logger is used as given; without one, the processor's logger keeps no line at all (a `NullLogger`) |
| Lifecycle.CompletedTraceShape | src/Queue/Processor.php:44-89 | every trace the lifecycle machine accepts is `seen` plus `invalid`, or `seen`, `start` and one outcome event; it has exactly one terminal event, which is last and decides the disposition; `start` is present exactly when the path is not `invalid`; no event name repeats |
| Lifecycle.ProcessCompletes | src/Queue/Processor.php:44-89 | every run of `Process` drives the lifecycle machine from idle to the done state of the disposition it returns |
| ProcessorProperties.InvalidCallableRejected | src/Queue/Processor.php:46-55 | a callable that is not invocable gives REJECT, the trace `[seen, invalid]`, the invalid-callable log line, and no call |
| ProcessorProperties.ExceptionRequeued | src/Queue/Processor.php:57-69 | a callee that throws gives REQUEUE and the trace `[seen, start, exception]`, with the thrown exception as the payload; the one log line contains the exception's message; exactly the selected target was called |
| ProcessorProperties.NullResponseAcked | src/Queue/Processor.php:71-113 | a callee returning `null` gives ACK, the trace `[seen, start, success]` and the success log line; exactly the selected target was called |
| ProcessorProperties.AckResponseAcked | src/Queue/Processor.php:71-76 | a callee returning exactly ACK gives ACK, the trace `[seen, start, success]` and the success log line; exactly the selected target was called |
| ProcessorProperties.RejectResponseRejected | src/Queue/Processor.php:78-83 | a callee returning exactly REJECT gives REJECT, the trace `[seen, start, reject]` and the rejection log line; exactly the selected target was called |
| ProcessorProperties.OtherResponseRequeued | src/Queue/Processor.php:85-88 | any other response gives REQUEUE, the trace `[seen, start, failure]` and the failure log line; exactly the selected target was called; this covers REQUEUE itself, other strings and non-strings |
| ProcessorProperties.UnhandledShapeRequeued | src/Queue/Processor.php:97-107 | an invocable callable that is neither a two-element array nor a string is never called; it gives REQUEUE, the trace `[seen, start, failure]` and the failure log line |
| ProcessorProperties.DispositionDecision | src/Queue/Processor.php:44-113 | in both directions: REJECT exactly for an invalid callable or a REJECT response; ACK exactly for a `null` or ACK response; REQUEUE exactly for an invocable callable with an unhandled shape, a thrown exception or any other response |
| ProcessorProperties.UncalledOnlyWhenOpaque | src/Queue/Processor.php:50-107 | if `is_callable` accepts arrays only of two elements, as PHP's does, an invocable callable is left uncalled exactly when it is neither an array nor a string |
| Interop.Disposition.ToValue | src/Queue/Processor.php:54-88 | Ack is returned as ACK, Reject as REJECT and Requeue as REQUEUE, the queue-interop string constants |
| ProcessorProperties.ResponsePassesThrough | src/Queue/Processor.php:71-111 | a callee's ACK or REJECT response is the string `process` returns, and a `null` response is returned as ACK |
| ProcessorProperties.LoggerReceivesDebugLine | src/Queue/Processor.php:33 | a processor built without a logger keeps none of a run's debug lines; one built with an injected logger receives the run's single line |
| Interop.ToValueInjective | src/Queue/Processor.php:54-88 | the three returned constants are distinct, so each return statement is a different disposition |

## Left out

- `src/Mailer/QueueTrait.php` is not modelled, because it holds no dispatch decision. It throws `MissingActionException` when the mailer has no method named `$action`. Otherwise it pushes the fixed callable `[MailerJob::class, 'dispatchAction']` to `QueueManager::push`, with a data array of the mailer name, action, arguments and headers, and passes the caller's options along. `QueueManager` is not part of this model.
- Payload decoding by `Queue\Job\Message` is not modelled. The callable reference it extracts is a field of the transport message, and arguments and headers are not represented.
- PHP `is_callable`, `new $className()`, the dynamic method call and `call_user_func` are not modelled. They are the parameters `isCallable` and `invoke`. `invoke` stands for construction and call together, so a throwing constructor is a `Raised` outcome.
- Non-`Exception` throwables (`Error`, `TypeError`) are not modelled, because the `catch (Exception $e)` does not catch them and they would leave `process`. The callee outcome type has no case for them.
- Event subscribers and logger backends are not modelled. Events are appended to a trace and debug lines to a log. An exception thrown by a subscriber would propagate out of `process`, and that path is not modelled.
- QueueProcessor.Process: events, log lines and callee calls are kept in three separate sequences, so their interleaving is not stated. In the source, the `seen` event comes before any log line. The one callee call, when made, comes after `start` and before the branch's log line and terminal event. Each branch logs before it dispatches its terminal event.
- Interop.ToValueInjective: the constant values come from the queue-interop `Processor` interface, which is not part of this model. The proofs rely only on the three values being distinct.
- Transport acknowledgement, the context's wire protocol and concurrency between workers are not modelled, because they lie outside the processor.
