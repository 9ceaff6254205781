/** Remote commands as the provider sees them: each one may fail, with or without taking effect. */
module Remote {

  /**
   The fate of one remote command: done and reported; lost before it reached the node; failed
   on the node; or carried out although the provider saw an error.
   */
  datatype Effect = Done | Lost | Failed | Unseen

  /**
   The network during a run, by remote step number: what becomes of each command, and
   whether each query (file comparison, service status) is answered.  An unanswered query
   counts as "no".
   */
  datatype Net = Net(step: nat -> Effect, answers: nat -> bool)

  /** The state after a sequence of remote steps, the number of the next step, and success. */
  datatype Step<+S> = Step(state: S, clock: nat, ok: bool)

  /** One all-or-nothing command that turns `before` into `after` when it takes effect. */
  function Do<S>(before: S, after: S, net: Net, t: nat): Step<S> {
    match net.step(t)
    case Done => Step(after, t + 1, true)
    case Lost => Step(before, t + 1, false)
    case Failed => Step(before, t + 1, false)
    case Unseen => Step(after, t + 1, false)
  }

  /** Nothing goes wrong. */
  ghost predicate Calm(net: Net) {
    forall t: nat :: net.step(t) == Done && net.answers(t)
  }

  /** Everything works except remote step `k`, which is lost. */
  function LosingStep(k: nat): Net { Net(t => if t == k then Lost else Done, t => true) }
}
