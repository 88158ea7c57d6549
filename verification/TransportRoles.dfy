/** Whose step a step is, and what a run contains: the steps of one thread's code, in order, and how
    many steps there are of a kind. */
module TransportRoles {
  import opened TransportModel

  function Actor(a: Action): Thread {
    match a
    case CallStep(t, _) => t
    case WriterStep(_) => Writer
    case EmitStep(t, _) => t
    case ReaderStep(t, _) => t
  }

  /** Whose code a step belongs to: the body of a worker thread, or a call made by a thread. */
  datatype Role = Worker(t: Thread) | CallOf(t: Thread)

  /** Steps that are not taken by the code in role `me`. */
  predicate Foreign(me: Role, a: Action) {
    match me
    case CallOf(t) => !a.CallStep? || a.caller != t
    case Worker(t) => a.CallStep? || Actor(a) != t
  }

  /** The steps in `acts` that the code in role `me` takes, in order. */
  function Own(me: Role, acts: seq<Action>): seq<Action> {
    if acts == [] then []
    else if Foreign(me, acts[0]) then Own(me, acts[1..])
    else [acts[0]] + Own(me, acts[1..])
  }

  lemma {:induction false} OwnSnoc(me: Role, acts: seq<Action>, a: Action)
    ensures Own(me, acts + [a]) == if Foreign(me, a) then Own(me, acts) else Own(me, acts) + [a]
    decreases |acts|
  {
    if acts != [] {
      OwnSnoc(me, acts[1..], a);
      assert (acts + [a])[1..] == acts[1..] + [a];
    }
  }

  /** How many of the steps satisfy `p`. */
  function HowMany(p: Action -> bool, acts: seq<Action>): nat {
    if acts == [] then 0 else (if p(acts[0]) then 1 else 0) + HowMany(p, acts[1..])
  }
}
