/**
 * The view of a delivered queue message that `Queue\Job\Message` offers the
 * processor. Decoding the payload is not modelled: the callable reference the
 * adapter extracts is carried as a field of the transport message.
 */
module Job {
  import opened Interop

  /**
   * What `getCallable()` hands back, shaped as PHP sees it:
   * an array of values (`['Mailer\Welcome', 'send']` is `Arr([Str(..), Str(..)])`),
   * a string naming a function, or any other value (`Opaque`: a Closure, an
   * invocable object, `null` for a malformed payload, a number, ...).
   */
  datatype CallableRef = Arr(items: seq<Value>) | Name(fn: string) | Opaque

  /** A transport message; `callable` is the reference its body decodes to. */
  datatype QueueMessage = QueueMessage(id: nat, callable: CallableRef)

  /** The transport session handle, passed through untouched. */
  datatype Context = Context(id: nat)

  /** The adapted message built once per delivery from the transport message and its context. */
  datatype Message = Message(queueMessage: QueueMessage, context: Context) {

    function GetCallable(): CallableRef
    {
      queueMessage.callable
    }
  }
}
