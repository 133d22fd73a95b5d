/** The gate that a key update closes to inbound stream responders. Responders count
    themselves in and out; a freeze sets a flag of its own kind, local or peer, and its
    guard is returned once the count has drained. Dropping a guard clears the flag. */
module ResponderGate {
  import opened Basics

  datatype Counters = Counters(active: nat, localFrozen: bool, peerFrozen: bool)

  predicate Shut(c: Counters) {
    c.localFrozen || c.peerFrozen
  }

  predicate Flag(c: Counters, peer: bool) {
    if peer then c.peerFrozen else c.localFrozen
  }

  function Entered(c: Counters): Option<Counters> {
    if Shut(c) || c.active >= U64_MAX then None else Some(c.(active := c.active + 1))
  }

  function Left(c: Counters): Counters {
    c.(active := if c.active == 0 then 0 else c.active - 1)
  }

  function WithFlag(c: Counters, peer: bool, frozen: bool): Counters {
    if peer then c.(peerFrozen := frozen) else c.(localFrozen := frozen)
  }

  class Gate {
    var active: nat
    var localFrozen: bool
    var peerFrozen: bool

    ghost function View(): Counters
      reads this
    {
      Counters(active, localFrozen, peerFrozen)
    }

    constructor ()
      ensures View() == Counters(0, false, false)
    {
      active, localFrozen, peerFrozen := 0, false, false;
    }

    // One turn of the entry loop; a refused turn waits for a change.
    method TryEnter() returns (entered: bool)
      modifies this`active
      ensures entered <==> Entered(old(View())).Some?
      ensures View() == if entered then Entered(old(View())).value else old(View())
    {
      if !localFrozen && !peerFrozen {
        if active >= U64_MAX {
          return false;
        }
        active := active + 1;
        return true;
      }
      return false;
    }

    method Leave()
      modifies this`active
      ensures View() == Left(old(View()))
    {
      if active > 0 {
        active := active - 1;
      }
    }

    method Freeze(peer: bool)
      modifies this`localFrozen, this`peerFrozen
      ensures View() == WithFlag(old(View()), peer, true)
    {
      if peer {
        peerFrozen := true;
      } else {
        localFrozen := true;
      }
    }

    method Thaw(peer: bool)
      modifies this`localFrozen, this`peerFrozen
      ensures View() == WithFlag(old(View()), peer, false)
    {
      if peer {
        peerFrozen := false;
      } else {
        localFrozen := false;
      }
    }
  }

  // ----- Interleavings --------------------------------------------------------------

  datatype Guard = Guard(peer: bool, returned: bool)

  /** The counters together with every guard that is alive. */
  datatype State = State(counters: Counters, responders: nat, guards: map<nat, Guard>)

  datatype Step =
    | Enter
    | Leave
    | BeginFreeze(peer: bool, id: nat)
    | ReturnGuard(id: nat)
    | DropGuard(id: nat)

  function Apply(s: State, step: Step): Option<State> {
    match step
    case Enter =>
      if Entered(s.counters).None? then None
      else Some(s.(counters := Entered(s.counters).value, responders := s.responders + 1))
    case Leave =>
      if s.responders == 0 then None
      else Some(s.(counters := Left(s.counters), responders := s.responders - 1))
    case BeginFreeze(peer, id) =>
      if id in s.guards then None
      else Some(s.(counters := WithFlag(s.counters, peer, true), guards := s.guards[id := Guard(peer, false)]))
    case ReturnGuard(id) =>
      if id !in s.guards || s.counters.active != 0 then None
      else Some(s.(guards := s.guards[id := s.guards[id].(returned := true)]))
    case DropGuard(id) =>
      if id !in s.guards then None
      else Some(s.(counters := WithFlag(s.counters, s.guards[id].peer, false), guards := s.guards - {id}))
  }

  function Run(s: State, steps: seq<Step>): Option<State>
    decreases |steps|
  {
    if steps == [] then Some(s)
    else if Apply(s, steps[0]).None? then None
    else Run(Apply(s, steps[0]).value, steps[1..])
  }

  const START := State(Counters(0, false, false), 0, map[])

  // ----- What holds in every interleaving -------------------------------------------

  ghost predicate Counted(s: State) {
    s.counters.active == s.responders
  }

  // A flag is set only on behalf of a live guard of its kind.
  ghost predicate FlagsOwned(s: State) {
    forall peer :: Flag(s.counters, peer) ==> exists id <- s.guards :: s.guards[id].peer == peer
  }

  lemma {:induction false} CountIsLiveResponders(s: State, steps: seq<Step>)
    requires Counted(s) && FlagsOwned(s) && Run(s, steps).Some?
    ensures Counted(Run(s, steps).value) && FlagsOwned(Run(s, steps).value)
    decreases |steps|
  {
    if steps != [] {
      OwnedStep(s, steps[0]);
      CountIsLiveResponders(Apply(s, steps[0]).value, steps[1..]);
    }
  }

  /** From a fresh gate the count is always the number of live responders, and a flag that
      is up has a live guard. */
  lemma EveryRunCounts(steps: seq<Step>)
    requires Run(START, steps).Some?
    ensures Counted(Run(START, steps).value) && FlagsOwned(Run(START, steps).value)
  {
    CountIsLiveResponders(START, steps);
  }

  lemma OwnedStep(s: State, step: Step)
    requires FlagsOwned(s) && Apply(s, step).Some?
    ensures FlagsOwned(Apply(s, step).value)
  {
    var t := Apply(s, step).value;
    forall peer | Flag(t.counters, peer)
      ensures exists id <- t.guards :: t.guards[id].peer == peer
    {
      if step.BeginFreeze? && step.peer == peer {
        assert t.guards[step.id].peer == peer;
      } else {
        assert Flag(s.counters, peer);
        var id :| id in s.guards && s.guards[id].peer == peer;
        assert t.guards[id].peer == peer;
      }
    }
  }

  // ----- Exclusion ------------------------------------------------------------------

  // While a returned guard lives, no responder is inside and none can enter.
  ghost predicate Excludes(s: State) {
    forall id <- s.guards :: s.guards[id].returned ==> s.responders == 0 && Entered(s.counters).None?
  }

  ghost predicate Sole(s: State) {
    forall i, j <- s.guards :: i in s.guards && i != j ==> s.guards[i].peer != s.guards[j].peer
  }

  ghost predicate Covered(s: State) {
    forall id <- s.guards ::
      Flag(s.counters, s.guards[id].peer) && (s.guards[id].returned ==> s.counters.active == 0)
  }

  ghost predicate Idle(s: State, peer: bool) {
    forall id <- s.guards :: s.guards[id].peer != peer
  }

  // Every freeze begins while no guard of its kind is alive.
  ghost predicate Disciplined(s: State, steps: seq<Step>)
    decreases |steps|
  {
    steps == []
    || (&& (steps[0].BeginFreeze? ==> Idle(s, steps[0].peer))
        && (Apply(s, steps[0]).Some? ==> Disciplined(Apply(s, steps[0]).value, steps[1..])))
  }

  lemma SoleStep(s: State, step: Step)
    requires Counted(s) && Sole(s) && Covered(s) && Apply(s, step).Some?
    requires step.BeginFreeze? ==> Idle(s, step.peer)
    ensures var t := Apply(s, step).value; Counted(t) && Sole(t) && Covered(t)
  {}

  lemma {:induction false} DisciplinedRunsExclude(s: State, steps: seq<Step>)
    requires Counted(s) && Sole(s) && Covered(s)
    requires Disciplined(s, steps) && Run(s, steps).Some?
    ensures Excludes(Run(s, steps).value)
    decreases |steps|
  {
    if steps != [] {
      SoleStep(s, steps[0]);
      DisciplinedRunsExclude(Apply(s, steps[0]).value, steps[1..]);
    }
  }

  // From a fresh gate, with one guard of each kind at a time, exclusion always holds.
  lemma FreezeExcludesResponders(steps: seq<Step>)
    requires Disciplined(START, steps) && Run(START, steps).Some?
    ensures Excludes(Run(START, steps).value)
  {
    DisciplinedRunsExclude(START, steps);
  }

  // ----- Two guards of one kind -----------------------------------------------------

  ghost predicate NoFreeze(steps: seq<Step>) {
    forall step <- steps :: !step.BeginFreeze?
  }

  lemma {:induction false} NoFreezeIsDisciplined(s: State, steps: seq<Step>)
    requires NoFreeze(steps)
    ensures Disciplined(s, steps)
    decreases |steps|
  {
    if steps != [] && Apply(s, steps[0]).Some? {
      NoFreezeIsDisciplined(Apply(s, steps[0]).value, steps[1..]);
    }
  }

  lemma {:induction false} RunJoins(s: State, first: seq<Step>, last: seq<Step>)
    requires Run(s, first).Some?
    ensures Run(s, first + last) == Run(Run(s, first).value, last)
    decreases |first|
  {
    if first == [] {
      assert first + last == last;
    } else {
      assert (first + last)[1..] == first[1..] + last;
      RunJoins(Apply(s, first[0]).value, first[1..], last);
    }
  }

  lemma {:induction false} LeaveAll(s: State) returns (steps: seq<Step>)
    requires Counted(s)
    ensures NoFreeze(steps)
    ensures Run(s, steps) == Some(s.(counters := s.counters.(active := 0), responders := 0))
    decreases s.responders
  {
    steps := [];
    if s.responders > 0 {
      var t := Apply(s, Leave).value;
      var rest := LeaveAll(t);
      steps := [Leave] + rest;
      assert steps[1..] == rest;
    }
  }

  lemma {:induction false} DropOthers(s: State, keep: nat) returns (steps: seq<Step>)
    requires keep in s.guards
    ensures NoFreeze(steps) && Run(s, steps).Some?
    ensures Run(s, steps).value.guards == map[keep := s.guards[keep]]
    ensures Run(s, steps).value.responders == s.responders
    ensures Flag(Run(s, steps).value.counters, s.guards[keep].peer) ==>
              && Flag(s.counters, s.guards[keep].peer)
              && forall id <- s.guards :: id != keep ==> s.guards[id].peer != s.guards[keep].peer
    decreases |s.guards|
  {
    steps := [];
    if exists other <- s.guards :: other != keep {
      var other :| other in s.guards && other != keep;
      var t := Apply(s, DropGuard(other)).value;
      Smaller(s.guards, other);
      var rest := DropOthers(t, keep);
      steps := [DropGuard(other)] + rest;
      assert steps[1..] == rest;
      assert forall id <- s.guards :: id == other || (id in t.guards && t.guards[id] == s.guards[id]);
    } else {
      assert s.guards == map[keep := s.guards[keep]];
    }
  }

  lemma Smaller(guards: map<nat, Guard>, id: nat)
    requires id in guards
    ensures |guards - {id}| < |guards|
  {
    assert (guards - {id}).Keys == guards.Keys - {id};
    assert |(guards - {id}).Keys| == |guards.Keys| - 1;
  }

  // Another guard of its kind is alive, or an earlier drop has already cleared its flag.
  ghost predicate Exposed(s: State, id: nat)
    requires id in s.guards
  {
    || !Flag(s.counters, s.guards[id].peer)
    || exists other <- s.guards :: other != id && s.guards[other].peer == s.guards[id].peer
  }

  // Once everything but an exposed guard is gone, the gate is open.
  lemma ExposureOpensGate(s: State, id: nat) returns (steps: seq<Step>)
    requires Counted(s) && FlagsOwned(s) && id in s.guards && Exposed(s, id)
    ensures NoFreeze(steps) && Run(s, steps).Some? && !Excludes(Run(s, steps).value)
  {
    var drain := LeaveAll(s);
    var drained := Run(s, drain).value;
    var returned := Apply(drained, ReturnGuard(id)).value;
    assert Run(returned, []) == Some(returned);
    assert Run(drained, [ReturnGuard(id)]) == Some(returned);
    var drops := DropOthers(returned, id);
    var end := Run(returned, drops).value;
    RunJoins(drained, [ReturnGuard(id)], drops);
    RunJoins(s, drain, [ReturnGuard(id)] + drops);
    steps := drain + ([ReturnGuard(id)] + drops);
    CountIsLiveResponders(s, steps);
    assert end.guards[id].returned;
    assert !Flag(end.counters, end.guards[id].peer) by {
      if Flag(s.counters, s.guards[id].peer) {
        var other :| other in s.guards && other != id && s.guards[other].peer == s.guards[id].peer;
        assert returned.guards[other].peer == returned.guards[id].peer;
      }
    }
    assert !Flag(end.counters, !end.guards[id].peer);
    assert Entered(end.counters).Some?;
  }

  /** Exclusion cannot be lost without a further freeze exactly when every live guard is the
      only one of its kind, its flag is up, and nobody is inside once it has been returned. */
  lemma ExclusionLastsExactlyWhenSole(s: State)
    requires Counted(s) && FlagsOwned(s)
    ensures Sole(s) && Covered(s) <==>
            forall steps :: NoFreeze(steps) && Run(s, steps).Some? ==> Excludes(Run(s, steps).value)
  {
    if Sole(s) && Covered(s) {
      hide Run, Excludes, Covered, Counted, FlagsOwned, Disciplined;
      forall steps | NoFreeze(steps) && Run(s, steps).Some?
        ensures Excludes(Run(s, steps).value)
      {
        NoFreezeIsDisciplined(s, steps);
        DisciplinedRunsExclude(s, steps);
      }
    } else {
      var steps := ExclusionEnds(s);
    }
  }

  lemma ExclusionEnds(s: State) returns (steps: seq<Step>)
    requires Counted(s) && FlagsOwned(s) && !(Sole(s) && Covered(s))
    ensures NoFreeze(steps) && Run(s, steps).Some? && !Excludes(Run(s, steps).value)
  {
    if !Sole(s) {
      var i, j :| i in s.guards && j in s.guards && i != j && s.guards[i].peer == s.guards[j].peer;
      hide Run, Excludes, Covered, Counted, FlagsOwned;
      steps := ExposureOpensGate(s, j);
    } else {
      var id :| id in s.guards
                && (!Flag(s.counters, s.guards[id].peer) || (s.guards[id].returned && s.counters.active != 0));
      if !Flag(s.counters, s.guards[id].peer) {
        hide Run, Excludes, Covered, Counted, FlagsOwned;
        steps := ExposureOpensGate(s, id);
      } else {
        steps := [];
      }
    }
  }

  // The second of two local freezes is left unprotected when the first guard is dropped.
  lemma OverlapLosesExclusion()
    ensures var steps := [BeginFreeze(false, 1), ReturnGuard(1), BeginFreeze(false, 2), ReturnGuard(2),
                          DropGuard(1), Enter];
            && Run(START, steps).Some?
            && Run(START, steps).value.responders == 1
            && Run(START, steps).value.guards == map[2 := Guard(false, true)]
  {
    var first, second := [BeginFreeze(false, 1), ReturnGuard(1)], [BeginFreeze(false, 2), ReturnGuard(2)];
    var third := [DropGuard(1), Enter];
    RunTwo(START, first);
    var one := Run(START, first).value;
    RunTwo(one, second);
    var two := Run(one, second).value;
    RunTwo(two, third);
    RunJoins(one, second, third);
    RunJoins(START, first, second + third);
    assert first + (second + third) == [BeginFreeze(false, 1), ReturnGuard(1), BeginFreeze(false, 2),
                                        ReturnGuard(2), DropGuard(1), Enter];
  }

  // After that drop a single guard lives, and still the gate is open.
  lemma LoneGuardMayBeExposed()
    ensures var steps := [BeginFreeze(false, 1), ReturnGuard(1), BeginFreeze(false, 2), ReturnGuard(2), DropGuard(1)];
            && Run(START, steps).Some? && Sole(Run(START, steps).value)
            && !Covered(Run(START, steps).value) && !Excludes(Run(START, steps).value)
  {
    var first, second := [BeginFreeze(false, 1), ReturnGuard(1)], [BeginFreeze(false, 2), ReturnGuard(2)];
    RunTwo(START, first);
    var one := Run(START, first).value;
    RunTwo(one, second);
    var two := Run(one, second).value;
    var last := Apply(two, DropGuard(1)).value;
    assert Run(last, []) == Some(last);
    assert Run(two, [DropGuard(1)]) == Some(last);
    RunJoins(one, second, [DropGuard(1)]);
    RunJoins(START, first, second + [DropGuard(1)]);
    assert first + (second + [DropGuard(1)])
        == [BeginFreeze(false, 1), ReturnGuard(1), BeginFreeze(false, 2), ReturnGuard(2), DropGuard(1)];
    assert last.guards == map[2 := Guard(false, true)];
  }

  lemma RunTwo(s: State, steps: seq<Step>)
    requires |steps| == 2
    ensures Run(s, steps) ==
            if Apply(s, steps[0]).None? then None else Apply(Apply(s, steps[0]).value, steps[1])
  {
    if Apply(s, steps[0]).Some? {
      var rest := steps[1..];
      var next := Apply(s, steps[0]).value;
      assert rest[0] == steps[1] && rest[1..] == [];
      assert Run(next, rest) == Apply(next, steps[1]);
    }
  }
}
