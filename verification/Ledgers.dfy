/** The stream ledger: which logical stream IDs one opener has used.
    `Ledger` is the abstract value, a map from stream ID to state; `StreamLedger`
    is the packed, in-place form that the session keeps (two bits per slot). */
module Ledgers {
  import opened Basics

  datatype Role = Client | Server

  datatype LedgerState = Unseen | AbandonedNoFss2 | OpenSeen | UsedOrTerminal

  datatype LedgerError = InvalidParity | LedgerExhausted | DuplicateId | NeverOpened

  datatype Outcome = Marked(ledger: Ledger) | Refused(error: LedgerError)

  const MAX_LEDGER_SLOTS: nat := 1_048_576

  /** IDs that are absent from `states` are `Unseen`. */
  datatype Ledger = Ledger(opener: Role, states: map<nat, LedgerState>)

  function FirstId(opener: Role): nat {
    if opener.Client? then 1 else 2
  }

  predicate ValidId(opener: Role, id: nat) {
    id != 0 && id % 2 == (if opener.Client? then 1 else 0)
  }

  function Ordinal(opener: Role, id: nat): nat {
    if opener.Client? then id / 2 + 1 else id / 2
  }

  /** The IDs for which the ledger has a slot. */
  predicate Known(opener: Role, id: nat) {
    ValidId(opener, id) && Ordinal(opener, id) <= MAX_LEDGER_SLOTS
  }

  function SlotOf(opener: Role, id: nat): (slot: nat)
    requires Known(opener, id)
    ensures slot < MAX_LEDGER_SLOTS && id == FirstId(opener) + 2 * slot
  {
    Ordinal(opener, id) - 1
  }

  function StateOf(l: Ledger, id: nat): LedgerState {
    if id in l.states then l.states[id] else Unseen
  }

  predicate IsSettled(s: LedgerState) {
    s == AbandonedNoFss2 || s == UsedOrTerminal
  }

  predicate Settled(l: Ledger, id: nat) {
    IsSettled(StateOf(l, id))
  }

  function EmptyLedger(opener: Role): Ledger {
    Ledger(opener, map[])
  }

  function Put(l: Ledger, id: nat, s: LedgerState): Ledger {
    l.(states := l.states[id := s])
  }

  lemma PutReads(l: Ledger, id: nat, s: LedgerState)
    ensures forall i: nat :: StateOf(Put(l, id, s), i) == if i == id then s else StateOf(l, i)
  {
  }

  function ErrorOf(o: Outcome): Option<LedgerError> {
    match o
    case Marked(_) => None
    case Refused(error) => Some(error)
  }

  // ----- The four marking operations ------------------------------------------------

  function IdError(opener: Role, id: nat): LedgerError {
    if ValidId(opener, id) then LedgerExhausted else InvalidParity
  }

  function MarkFss2(l: Ledger, id: nat): Outcome {
    if !Known(l.opener, id) then Refused(IdError(l.opener, id))
    else if StateOf(l, id) != Unseen then Refused(DuplicateId)
    else Marked(Put(l, id, OpenSeen))
  }

  function MarkTerminal(l: Ledger, id: nat): Outcome {
    if !Known(l.opener, id) then Refused(IdError(l.opener, id))
    else match StateOf(l, id)
      case OpenSeen => Marked(Put(l, id, UsedOrTerminal))
      case UsedOrTerminal => Marked(l)
      case _ => Refused(NeverOpened)
  }

  function MarkPeerReset(l: Ledger, id: nat): Outcome {
    if !Known(l.opener, id) then Refused(IdError(l.opener, id))
    else match StateOf(l, id)
      case Unseen => Marked(Put(l, id, AbandonedNoFss2))
      case OpenSeen => Marked(Put(l, id, UsedOrTerminal))
      case _ => Marked(l)
  }

  function MarkLateFss2(l: Ledger, id: nat): Outcome {
    if !Known(l.opener, id) then Refused(IdError(l.opener, id))
    else if StateOf(l, id) != AbandonedNoFss2 then Refused(DuplicateId)
    else Marked(Put(l, id, UsedOrTerminal))
  }

  // ----- The frontier ---------------------------------------------------------------

  function NextId(opener: Role, f: nat): nat {
    if f == 0 then FirstId(opener) else f + 2
  }

  predicate FrontierShape(opener: Role, f: nat) {
    f == 0 || Known(opener, f)
  }

  /** Every slot up to `f` is settled. */
  ghost predicate SettledUpTo(l: Ledger, f: nat) {
    && FrontierShape(l.opener, f)
    && forall id: nat | Known(l.opener, id) && id <= f :: Settled(l, id)
  }

  /** `f` ends the maximal settled prefix of the ID sequence. */
  ghost predicate IsFrontier(l: Ledger, f: nat) {
    && SettledUpTo(l, f)
    && !(Known(l.opener, NextId(l.opener, f)) && Settled(l, NextId(l.opener, f)))
  }

  function AdvanceFrom(l: Ledger, f: nat): nat
    requires FrontierShape(l.opener, f)
    decreases 2 * MAX_LEDGER_SLOTS + 2 - f
  {
    var next := NextId(l.opener, f);
    if Known(l.opener, next) && Settled(l, next) then AdvanceFrom(l, next) else f
  }

  function Frontier(l: Ledger): nat {
    AdvanceFrom(l, 0)
  }

  lemma {:induction false} AdvanceReachesFrontier(l: Ledger, f: nat)
    requires SettledUpTo(l, f)
    ensures IsFrontier(l, AdvanceFrom(l, f))
    decreases 2 * MAX_LEDGER_SLOTS + 2 - f
  {
    var next := NextId(l.opener, f);
    if Known(l.opener, next) && Settled(l, next) {
      StepOver(l, f);
      AdvanceReachesFrontier(l, next);
    }
  }

  lemma StepOver(l: Ledger, f: nat)
    requires SettledUpTo(l, f)
    requires Known(l.opener, NextId(l.opener, f)) && Settled(l, NextId(l.opener, f))
    ensures SettledUpTo(l, NextId(l.opener, f))
  {
    var next := NextId(l.opener, f);
    assert forall id: nat | Known(l.opener, id) && id <= next :: id <= f || id == next;
  }

  lemma PrefixBelowFrontier(l: Ledger, f: nat, g: nat)
    requires SettledUpTo(l, f) && IsFrontier(l, g)
    ensures f <= g
  {
    assert f > g ==> Known(l.opener, NextId(l.opener, g)) && NextId(l.opener, g) <= f;
  }

  /** The frontier is the last ID of the longest settled prefix, and nothing else is. */
  lemma FrontierIsMaximal(l: Ledger, f: nat)
    ensures IsFrontier(l, Frontier(l))
    ensures SettledUpTo(l, f) ==> f <= Frontier(l)
    ensures IsFrontier(l, f) <==> f == Frontier(l)
  {
    AdvanceReachesFrontier(l, 0);
    if SettledUpTo(l, f) { PrefixBelowFrontier(l, f, Frontier(l)); }
    if IsFrontier(l, f) { PrefixBelowFrontier(l, Frontier(l), f); }
  }

  /** A ledger in which exactly the IDs up to `f` are settled has frontier `f`. */
  lemma FrontierOfPrefix(l: Ledger, f: nat)
    requires SettledUpTo(l, f)
    requires forall id: nat | Known(l.opener, id) && id > f :: !Settled(l, id)
    ensures Frontier(l) == f
  {
    FrontierIsMaximal(l, f);
  }

  // ----- Every operation sequence ---------------------------------------------------

  datatype Op = Fss2(id: nat) | Terminal(id: nat) | PeerReset(id: nat) | LateFss2(id: nat)

  function Mark(l: Ledger, op: Op): Outcome {
    match op
    case Fss2(id) => MarkFss2(l, id)
    case Terminal(id) => MarkTerminal(l, id)
    case PeerReset(id) => MarkPeerReset(l, id)
    case LateFss2(id) => MarkLateFss2(l, id)
  }

  // The IDs of an opener: odd for a client, even for a server, a million of each.
  lemma KnownIdsExactly(opener: Role, id: nat)
    ensures Known(opener, id) <==> 1 <= id <= 2_097_152 && (id % 2 == 1 <==> opener.Client?)
    ensures ValidId(opener, id) <==> 1 <= id && (id % 2 == 1 <==> opener.Client?)
  {}

  /** Every operation by its ID and the state of its slot: which error it gives, and the
      state it leaves. */
  lemma MarksExactly(l: Ledger, op: Op)
    ensures var own, was := op.id != 0 && (op.id % 2 == 1 <==> l.opener.Client?), StateOf(l, op.id);
            ErrorOf(Mark(l, op)) ==
            if !own then Some(InvalidParity)
            else if op.id > 2_097_152 then Some(LedgerExhausted)
            else match op
              case Fss2(_) => if was == Unseen then None else Some(DuplicateId)
              case Terminal(_) => if was == Unseen || was == AbandonedNoFss2 then Some(NeverOpened) else None
              case PeerReset(_) => None
              case LateFss2(_) => if was == AbandonedNoFss2 then None else Some(DuplicateId)
    ensures Mark(l, op).Marked? ==>
              StateOf(After(l, op), op.id) ==
              match op
              case Fss2(_) => OpenSeen
              case Terminal(_) => UsedOrTerminal
              case PeerReset(_) =>
                (match StateOf(l, op.id)
                 case Unseen => AbandonedNoFss2
                 case AbandonedNoFss2 => AbandonedNoFss2
                 case _ => UsedOrTerminal)
              case LateFss2(_) => UsedOrTerminal
  {
    KnownIdsExactly(l.opener, op.id);
    hide Known, ValidId;
  }

  /** A refused operation leaves the ledger as it was. */
  function After(l: Ledger, op: Op): Ledger {
    match Mark(l, op)
    case Marked(next) => next
    case Refused(_) => l
  }

  function AfterAll(l: Ledger, ops: seq<Op>): Ledger
    decreases |ops|
  {
    if ops == [] then l else AfterAll(After(l, ops[0]), ops[1..])
  }

  /** The order in which one slot may move. */
  predicate Forward(s: LedgerState, t: LedgerState) {
    s == t || s == Unseen || t == UsedOrTerminal
  }

  /** One operation touches one slot, moves it forward, and never moves the frontier back. */
  lemma OneSlotForward(l: Ledger, op: Op, other: nat)
    ensures After(l, op).opener == l.opener
    ensures other != op.id ==> StateOf(After(l, op), other) == StateOf(l, other)
    ensures Forward(StateOf(l, other), StateOf(After(l, op), other))
    ensures Frontier(l) <= Frontier(After(l, op))
  {
    FrontierIsMaximal(l, 0);
    FrontierIsMaximal(After(l, op), Frontier(l));
    var m := After(l, op);
    forall id: nat | Known(m.opener, id) && id <= Frontier(l) ensures Settled(m, id) {
      assert Settled(l, id);
    }
  }

  /** Over any operation sequence every slot only moves forward. */
  lemma {:induction false} SlotsOnlyMoveForward(l: Ledger, ops: seq<Op>, id: nat)
    ensures AfterAll(l, ops).opener == l.opener
    ensures Forward(StateOf(l, id), StateOf(AfterAll(l, ops), id))
    ensures Settled(l, id) ==> Settled(AfterAll(l, ops), id)
    ensures Frontier(l) <= Frontier(AfterAll(l, ops))
    decreases |ops|
  {
    if ops != [] {
      OneSlotForward(l, ops[0], id);
      SlotsOnlyMoveForward(After(l, ops[0]), ops[1..], id);
    }
  }

  /** Two FSS2 marks of one ID cannot both succeed, whatever happens between them. */
  lemma OpenedAtMostOnce(l: Ledger, id: nat, between: seq<Op>)
    requires MarkFss2(l, id).Marked?
    ensures MarkFss2(AfterAll(After(l, Fss2(id)), between), id).Refused?
  {
    SlotsOnlyMoveForward(After(l, Fss2(id)), between, id);
  }

  // ----- The packed form ------------------------------------------------------------

  function Code(s: LedgerState): bv8 {
    match s
    case Unseen => 0
    case AbandonedNoFss2 => 1
    case OpenSeen => 2
    case UsedOrTerminal => 3
  }

  function StateOfCode(bits: bv8): LedgerState {
    if bits == 0 then Unseen
    else if bits == 1 then AbandonedNoFss2
    else if bits == 2 then OpenSeen
    else UsedOrTerminal
  }

  // The two bits of slot `k`, and the byte with them replaced.
  function Bits(b: bv8, k: nat): bv8
    requires k < 4
  {
    (b >> (k * 2)) & 3
  }

  function WithBits(b: bv8, k: nat, bits: bv8): bv8
    requires k < 4
  {
    (b & !((3 as bv8) << (k * 2))) | (bits << (k * 2))
  }

  function ReadSlot(b: bv8, k: nat): LedgerState
    requires k < 4
  {
    StateOfCode(Bits(b, k))
  }

  function WriteSlot(b: bv8, k: nat, s: LedgerState): bv8
    requires k < 4
  {
    WithBits(b, k, Code(s))
  }

  /** Writing one two-bit slot of a byte leaves the other three as they were. */
  lemma WriteSlotReads(b: bv8, k: nat, s: LedgerState, j: nat)
    requires k < 4 && j < 4
    ensures ReadSlot(WriteSlot(b, k, s), j) == if j == k then s else ReadSlot(b, j)
  {
    assert StateOfCode(Code(s)) == s && Code(s) < 4;
    hide Bits, WithBits, Code, StateOfCode;
    if k == 0 { WithBits0(b, Code(s), j); }
    else if k == 1 { WithBits1(b, Code(s), j); }
    else if k == 2 { WithBits2(b, Code(s), j); }
    else { WithBits3(b, Code(s), j); }
  }

  lemma WithBits0(b: bv8, bits: bv8, j: nat)
    requires j < 4 && bits < 4
    ensures Bits(WithBits(b, 0, bits), j) == if j == 0 then bits else Bits(b, j)
  {
    if j == 0 {} else if j == 1 {} else if j == 2 {} else {}
  }

  lemma WithBits1(b: bv8, bits: bv8, j: nat)
    requires j < 4 && bits < 4
    ensures Bits(WithBits(b, 1, bits), j) == if j == 1 then bits else Bits(b, j)
  {
    if j == 0 {} else if j == 1 {} else if j == 2 {} else {}
  }

  lemma WithBits2(b: bv8, bits: bv8, j: nat)
    requires j < 4 && bits < 4
    ensures Bits(WithBits(b, 2, bits), j) == if j == 2 then bits else Bits(b, j)
  {
    if j == 0 {} else if j == 1 {} else if j == 2 {} else {}
  }

  lemma WithBits3(b: bv8, bits: bv8, j: nat)
    requires j < 4 && bits < 4
    ensures Bits(WithBits(b, 3, bits), j) == if j == 3 then bits else Bits(b, j)
  {
    if j == 0 {} else if j == 1 {} else if j == 2 {} else {}
  }

  function SatAdd2(x: nat): nat {
    if x + 2 > U64_MAX then U64_MAX else x + 2
  }

  class StreamLedger {
    const opener: Role
    const states: array<bv8>
    var frontier: nat

    ghost predicate Sized() {
      states.Length == MAX_LEDGER_SLOTS / 4
    }

    function At(slot: nat): LedgerState
      requires Sized() && slot < MAX_LEDGER_SLOTS
      reads states
    {
      ReadSlot(states[slot / 4], slot % 4)
    }

    /** The abstract value: the IDs whose slot is not `Unseen`, with their states. */
    ghost function View(): Ledger
      requires Sized()
      reads states
    {
      Ledger(opener,
             map id: nat | id <= 2 * MAX_LEDGER_SLOTS && Known(opener, id) && At(SlotOf(opener, id)) != Unseen
             :: At(SlotOf(opener, id)))
    }

    ghost predicate Valid()
      reads this, states
    {
      Sized() && frontier == Frontier(View())
    }

    constructor (opener: Role)
      ensures Valid() && fresh(states)
      ensures View() == EmptyLedger(opener) && frontier == 0
    {
      this.opener := opener;
      states := new bv8[MAX_LEDGER_SLOTS / 4](_ => 0);
      frontier := 0;
      new;
      assert forall slot: nat | slot < MAX_LEDGER_SLOTS :: At(slot) == Unseen by {
        forall slot: nat | slot < MAX_LEDGER_SLOTS ensures At(slot) == Unseen {
          ZeroByteUnseen(slot % 4);
        }
      }
      assert View() == EmptyLedger(opener);
    }

    lemma ZeroByteUnseen(k: nat)
      requires k < 4
      ensures ReadSlot(0, k) == Unseen
    {
      if k == 0 {} else if k == 1 {} else if k == 2 {} else {}
    }

    lemma ViewReads(id: nat)
      requires Sized() && Known(opener, id)
      ensures StateOf(View(), id) == At(SlotOf(opener, id))
    {
    }

    /** Rewrites one slot in its byte. */
    method Set(id: nat, s: LedgerState)
      requires Sized() && Known(opener, id) && s != Unseen
      modifies states
      ensures View() == old(Put(View(), id, s))
    {
      hide Bits, WithBits, Code, StateOfCode;
      var slot := SlotOf(opener, id);
      states[slot / 4] := WriteSlot(states[slot / 4], slot % 4, s);
      forall other: nat | other < MAX_LEDGER_SLOTS
        ensures At(other) == if other == slot then s else old(At(other))
      {
        if other / 4 == slot / 4 {
          WriteSlotReads(old(states[slot / 4]), slot % 4, s, other % 4);
        }
      }
      assert View().states == old(View()).states[id := s];
    }

    /** Moves the frontier over every slot that is settled now. */
    method Advance()
      requires Sized() && SettledUpTo(View(), frontier)
      modifies this`frontier
      ensures Valid() && View() == old(View())
    {
      ghost var v := View();
      var next := if frontier == 0 then FirstId(opener) else SatAdd2(frontier);
      while Known(opener, next) && IsSettled(At(SlotOf(opener, next)))
        invariant SettledUpTo(v, frontier)
        invariant next == NextId(opener, frontier)
        decreases 2 * MAX_LEDGER_SLOTS + 2 - next
      {
        ViewReads(next);
        StepOver(v, frontier);
        frontier := next;
        next := SatAdd2(next);
      }
      if Known(opener, next) { ViewReads(next); }
      FrontierIsMaximal(v, frontier);
    }

    method MarkFss2(id: nat) returns (error: Option<LedgerError>)
      requires Valid()
      modifies this`frontier, states
      ensures Valid()
      ensures error == ErrorOf(Mark(old(View()), Fss2(id)))
      ensures View() == After(old(View()), Fss2(id))
      ensures frontier == old(frontier)
    {
      if !Known(opener, id) { return Some(IdError(opener, id)); }
      ViewReads(id);
      if At(SlotOf(opener, id)) != Unseen { return Some(DuplicateId); }
      FrontierIsMaximal(View(), frontier);
      Set(id, OpenSeen);
      FrontierIsMaximal(View(), frontier);
      return None;
    }

    method MarkTerminal(id: nat) returns (error: Option<LedgerError>)
      requires Valid()
      modifies this`frontier, states
      ensures Valid()
      ensures error == ErrorOf(Mark(old(View()), Terminal(id)))
      ensures View() == After(old(View()), Terminal(id))
    {
      if !Known(opener, id) { return Some(IdError(opener, id)); }
      ViewReads(id);
      match At(SlotOf(opener, id)) {
        case OpenSeen => Settle(id, UsedOrTerminal); return None;
        case UsedOrTerminal => return None;
        case _ => return Some(NeverOpened);
      }
    }

    method MarkPeerReset(id: nat) returns (error: Option<LedgerError>)
      requires Valid()
      modifies this`frontier, states
      ensures Valid()
      ensures error == ErrorOf(Mark(old(View()), PeerReset(id)))
      ensures View() == After(old(View()), PeerReset(id))
    {
      if !Known(opener, id) { return Some(IdError(opener, id)); }
      ViewReads(id);
      match At(SlotOf(opener, id)) {
        case Unseen => Settle(id, AbandonedNoFss2); return None;
        case OpenSeen => Settle(id, UsedOrTerminal); return None;
        case _ => return None;
      }
    }

    method MarkLateFss2(id: nat) returns (error: Option<LedgerError>)
      requires Valid()
      modifies this`frontier, states
      ensures Valid()
      ensures error == ErrorOf(Mark(old(View()), LateFss2(id)))
      ensures View() == After(old(View()), LateFss2(id))
    {
      if !Known(opener, id) { return Some(IdError(opener, id)); }
      ViewReads(id);
      if At(SlotOf(opener, id)) != AbandonedNoFss2 { return Some(DuplicateId); }
      Settle(id, UsedOrTerminal);
      return None;
    }

    /** Settles one slot, then advances: the common tail of the marking methods. */
    method Settle(id: nat, s: LedgerState)
      requires Valid() && Known(opener, id) && IsSettled(s)
      modifies this`frontier, states
      ensures Valid()
      ensures View() == old(Put(View(), id, s))
    {
      FrontierIsMaximal(View(), frontier);
      Set(id, s);
      Advance();
    }
  }
}
