/**
 * The return contract of a queue-interop processor: three string constants
 * and the PHP values a callee may hand back, as far as the strict comparisons
 * (`===`) of the processor can tell them apart.
 */
module Interop {
  /** The values of `Interop\Queue\Processor::ACK`, `::REJECT` and `::REQUEUE`. */
  const ACK: string := "enqueue.ack"
  const REJECT: string := "enqueue.reject"
  const REQUEUE: string := "enqueue.requeue"

  /**
   * A PHP value. `Null` is `null`, `Str` is a string; `Other` stands for every
   * value that is neither (integers, booleans, arrays, objects, including
   * objects with a `__toString` method), none of which is `===` a string.
   */
  datatype Value = Null | Str(s: string) | Other

  /** The disposition a processor hands back to the queue transport. */
  datatype Disposition = Ack | Reject | Requeue {

    /** The string constant the PHP processor returns for this disposition. */
    function ToValue(): (v: Value)
      ensures v.Str? && v.s in {ACK, REJECT, REQUEUE}
      ensures this == Ack <==> v == Str(ACK)
      ensures this == Reject <==> v == Str(REJECT)
      ensures this == Requeue <==> v == Str(REQUEUE)
    {
      match this
      case Ack => Str(ACK)
      case Reject => Str(REJECT)
      case Requeue => Str(REQUEUE)
    }
  }

  /** Distinct dispositions return distinct constants, so the transport can tell them apart. */
  lemma ToValueInjective(d: Disposition, e: Disposition)
    ensures d.ToValue() == e.ToValue() ==> d == e
  {
  }
}
