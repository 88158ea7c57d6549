/** What Relaxed leaves of an order: within one thread, no read of the counter goes back behind an earlier
    read or write of that thread, whatever the others do in between. */
module TransportCoherence {
  import opened TransportModel
  import opened TransportLedger

  lemma {:induction false} RememberRun(c: Config, s: State, acts: seq<Action>, z: State)
    requires ViewInv(s) && Run(c, s, acts, z)
    ensures ViewInv(z) && Remembers(s, z)
    decreases |acts|
  {
    if acts != [] {
      var y := Apply(c, s, acts[0]);
      ViewsKept(c, s, acts[0]);
      RememberRun(c, y, acts[1..], z);
      forall t ensures ViewOf(s, t) <= ViewOf(z, t) {
        assert ViewOf(s, t) <= ViewOf(y, t) <= ViewOf(z, t);
      }
    }
  }

  /** `t` reads the counter at position `at` of the modification order. */
  predicate ReadsAt(t: Thread, a: Action, at: nat) {
    a == CallStep(t, Load(at)) || a == CallStep(t, CasFail(at)) || a == CallStep(t, Answer(at))
  }

  /** `t` writes the counter. */
  predicate WritesBy(t: Thread, a: Action) {
    || a == CallStep(t, CasOk) || a == CallStep(t, GiveBack)
    || (t == Writer && a in {WriterStep(ReleaseCommand), WriterStep(ReleaseBulk)})
  }

  lemma ReaderSees(c: Config, s: State, t: Thread, a: CallAction, at: nat)
    requires CallEnabled(c, s, t, a) && ReadsAt(t, CallStep(t, a), at)
    ensures ViewOf(CallApply(c, s, t, a), t) == at
  {
  }

  lemma WriterSees(c: Config, s: State, t: Thread, a: Action)
    requires Enabled(c, s, a) && WritesBy(t, a)
    ensures ViewOf(Apply(c, s, a), t) == |s.shared.mods|
  {
  }

  /** A later read returns the same value or a newer one: never an older one than was read before, nor
      one older than the thread's own write. */
  lemma CoherentReads(c: Config, s: State, t: Thread, a: Action, acts: seq<Action>, y: State, b: Action, later: nat)
    requires ViewInv(s) && Enabled(c, s, a) && Run(c, Apply(c, s, a), acts, y)
    requires Enabled(c, y, b) && ReadsAt(t, b, later)
    ensures forall at: nat | ReadsAt(t, a, at) :: at <= later
    ensures WritesBy(t, a) ==> |s.shared.mods| <= later
  {
    ViewsKept(c, s, a);
    RememberRun(c, Apply(c, s, a), acts, y);
    LaterRead(c, y, t, b, later);
    assert ViewOf(Apply(c, s, a), t) <= later;
    if WritesBy(t, a) {
      WriterSees(c, s, t, a);
    }
    forall at: nat | ReadsAt(t, a, at) ensures at <= later {
      ReaderSees(c, s, t, a.call, at);
    }
  }

  lemma LaterRead(c: Config, y: State, t: Thread, b: Action, later: nat)
    requires Enabled(c, y, b) && ReadsAt(t, b, later)
    ensures ViewOf(y, t) <= later
  {
  }
}
