/**
 * The per-message lifecycle as a state machine, written independently of
 * `Process`:
 *   SEEN -> INVALID (done)  |  SEEN -> START -> {EXCEPTION, SUCCESS, REJECT, FAILURE} (done)
 * with no revisits. A trace is complete when it drives the machine from
 * `Idle` to `Done(d)`; `d` is then the disposition the terminal state maps to.
 */
module Lifecycle {
  import opened Wrappers
  import opened Interop
  import opened Job
  import opened QueueProcessor

  datatype Phase = Idle | Observed | Running | Done(disposition: Disposition)

  /** One transition; `None` when the event is not allowed in the phase. */
  function Next(s: Phase, e: Event): Option<Phase>
  {
    match (s, e)
    case (Idle, MessageSeen(_)) => Some(Observed)
    case (Observed, MessageInvalid(_)) => Some(Done(Reject))
    case (Observed, MessageStart(_)) => Some(Running)
    case (Running, MessageException(_, _)) => Some(Done(Requeue))
    case (Running, MessageSuccess(_)) => Some(Done(Ack))
    case (Running, MessageReject(_)) => Some(Done(Reject))
    case (Running, MessageFailure(_)) => Some(Done(Requeue))
    case _ => None
  }

  /** The phase reached by feeding `es` to the machine from `s`, if every step is allowed. */
  function RunFrom(s: Phase, es: seq<Event>): Option<Phase>
    decreases |es|
  {
    if |es| == 0 then Some(s)
    else
      match Next(s, es[0])
      case None => None
      case Some(s') => RunFrom(s', es[1..])
  }

  /** `es` is a complete lifecycle of one message that ends with disposition `d`. */
  predicate Completes(es: seq<Event>, d: Disposition)
  {
    RunFrom(Idle, es) == Some(Done(d))
  }

  /** A finished machine accepts no further event. */
  lemma DoneIsFinal(x: Disposition, es: seq<Event>, d: Disposition)
    requires RunFrom(Done(x), es) == Some(Done(d))
    ensures es == [] && x == d
  {
  }

  /** From `Running`, exactly one terminal event other than `invalid` completes the lifecycle. */
  lemma RunningShape(es: seq<Event>, d: Disposition)
    requires RunFrom(Running, es) == Some(Done(d))
    ensures |es| == 1
    ensures es[0].IsTerminal() && !es[0].MessageInvalid?
    ensures es[0].Returns() == Some(d)
  {
  }

  /**
   * Every complete lifecycle, not only those `Process` produces, is `seen`
   * followed either by `invalid` alone or by `start` and one outcome event:
   * it starts with `seen`, holds exactly one terminal event, which is last and
   * decides the disposition, and holds `start` exactly when it is not the
   * `invalid` path; no event name occurs twice.
   */
  lemma {:induction false} CompletedTraceShape(es: seq<Event>, d: Disposition)
    requires Completes(es, d)
    ensures |es| == 2 || |es| == 3
    ensures es[0].MessageSeen?
    ensures es[|es| - 1].Returns() == Some(d)
    ensures forall i :: 0 <= i < |es| - 1 ==> !es[i].IsTerminal()
    ensures |es| == 2 <==> es[1].MessageInvalid?
    ensures (exists i :: 0 <= i < |es| && es[i].MessageStart?) <==> |es| == 3
    ensures forall i, j :: 0 <= i < j < |es| ==> es[i].Name() != es[j].Name()
  {
    assert |es| > 0;
    assert Next(Idle, es[0]) == Some(Observed);
    var rest := es[1..];
    assert RunFrom(Observed, rest) == Some(Done(d));
    assert |rest| > 0;
    match Next(Observed, rest[0])
    case None =>
      assert false;
    case Some(s) =>
      assert RunFrom(s, rest[1..]) == Some(Done(d));
      if s == Running {
        RunningShape(rest[1..], d);
        assert |es| == 3;
      } else {
        DoneIsFinal(s.disposition, rest[1..], d);
        assert |es| == 2;
      }
  }

  /** Every run of `Process` is a complete lifecycle whose terminal state is the disposition it returns. */
  lemma ProcessCompletes(p: Processor, qm: QueueMessage, ctx: Context,
                         isCallable: CallableRef -> bool, invoke: (Target, Message) -> Outcome)
    ensures var r := Process(p, qm, ctx, isCallable, invoke);
      Completes(r.events, r.disposition)
  {
    var r := Process(p, qm, ctx, isCallable, invoke);
    var es := r.events;
    assert RunFrom(Idle, es) == RunFrom(Observed, es[1..]);
    var s := Next(Observed, es[1]).value;
    assert RunFrom(Observed, es[1..]) == RunFrom(s, es[2..]);
    if |es| == 3 {
      assert s == Running;
      assert RunFrom(Running, es[2..]) == RunFrom(Done(r.disposition), []);
    } else {
      assert es[2..] == [];
    }
  }
}
