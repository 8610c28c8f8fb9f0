/**
 The two-slot connection table of the network adapter. A connection is named by a slot and the
 generation the slot had when it was issued; sockets themselves are not part of this model.
 */
module Connections {
  import opened Common

  datatype ConnectionHandle = ConnectionHandle(slot: nat, generation: nat)

  const INVALID_CONNECTION := ConnectionHandle(0xFF, 0)
  const SLOT_COUNT: nat := 2
  const LAST_GENERATION: nat := TWO_32 - 1

  predicate IsValidHandle(h: ConnectionHandle) {
    h.generation != 0 && h.slot != INVALID_CONNECTION.slot
  }

  datatype Slot = Slot(generation: nat, active: bool, retired: bool)

  /** A slot table; a retired slot is never active and an active one has a positive generation. */
  ghost predicate IsTable(t: seq<Slot>) {
    && |t| == SLOT_COUNT
    && forall i :: 0 <= i < |t| ==> && t[i].generation <= LAST_GENERATION
                                    && (t[i].active ==> t[i].generation >= 1 && !t[i].retired)
  }

  const NO_CONNECTIONS: seq<Slot> := [Slot(0, false, false), Slot(0, false, false)]

  predicate Reusable(s: Slot) {
    !s.active && !s.retired
  }

  function FirstReusable(t: seq<Slot>): (i: nat)
    ensures i <= |t|
    ensures i < |t| ==> Reusable(t[i])
    ensures forall j :: 0 <= j < i ==> !Reusable(t[j])
  {
    if t == [] || Reusable(t[0]) then 0
    else
      assert forall j :: 0 < j < |t| ==> t[j] == t[1..][j - 1];
      1 + FirstReusable(t[1..])
  }

  /** The slot a handle resolves to, if any. */
  function Lookup(t: seq<Slot>, h: ConnectionHandle): Option<nat> {
    if !IsValidHandle(h) || h.slot >= |t| then None
    else
      var s := t[h.slot];
      if !s.active || s.retired || s.generation != h.generation then None else Some(h.slot)
  }

  predicate Resolves(t: seq<Slot>, h: ConnectionHandle) {
    Lookup(t, h).Some?
  }

  /** The handle `Accept` issues: the first reusable slot with its current generation, at least 1. */
  function Issued(t: seq<Slot>): ConnectionHandle {
    var i := FirstReusable(t);
    if i < |t| then ConnectionHandle(i, if t[i].generation == 0 then 1 else t[i].generation) else INVALID_CONNECTION
  }

  function Accepted(t: seq<Slot>): seq<Slot> {
    var h := Issued(t);
    if h.slot < |t| then t[h.slot := Slot(h.generation, true, t[h.slot].retired)] else t
  }

  /** A slot after its connection ends: the next generation, or retirement when there is none. */
  function Invalidated(s: Slot): Slot {
    if s.generation >= LAST_GENERATION then Slot(0, false, true) else Slot(s.generation + 1, false, s.retired)
  }

  function Aborted(t: seq<Slot>, h: ConnectionHandle): seq<Slot> {
    match Lookup(t, h)
    case None => t
    case Some(i) => t[i := Invalidated(t[i])]
  }

  function Occupied(t: seq<Slot>): nat {
    if t == [] then 0 else (if t[0].active then 1 else 0) + Occupied(t[1..])
  }

  // ---------------------------------------------------------------------------------------
  // Handles over whole runs.

  datatype Action = AcceptNext | EndConnection(handle: ConnectionHandle)

  /** Every handle issued so far, in order, and every handle whose connection was ended. */
  datatype Run = Run(table: seq<Slot>, issued: seq<ConnectionHandle>, ended: set<ConnectionHandle>)

  function Step(r: Run, a: Action): Run {
    match a
    case AcceptNext =>
      if IsValidHandle(Issued(r.table)) then r.(table := Accepted(r.table), issued := r.issued + [Issued(r.table)]) else r
    case EndConnection(h) =>
      if Resolves(r.table, h) then r.(table := Aborted(r.table, h), ended := r.ended + {h}) else r
  }

  function Play(actions: seq<Action>): Run {
    if actions == [] then Run(NO_CONNECTIONS, [], {})
    else Step(Play(actions[..|actions| - 1]), actions[|actions| - 1])
  }

  /** A handle that can never resolve again: its slot is retired or has moved past its generation. */
  predicate Dead(t: seq<Slot>, h: ConnectionHandle) {
    h.slot < |t| && (t[h.slot].retired || h.generation < t[h.slot].generation)
  }

  ghost predicate Tracked(r: Run) {
    && IsTable(r.table)
    && (forall i, j :: 0 <= i < j < |r.issued| ==> r.issued[i] != r.issued[j])
    && (forall h :: h in r.issued ==> if h in r.ended then Dead(r.table, h) else Resolves(r.table, h))
    && (forall h :: h in r.ended ==> h in r.issued)
    && (forall h :: Resolves(r.table, h) ==> h in r.issued)
  }

  lemma StepTracks(r: Run, a: Action)
    requires Tracked(r)
    ensures Tracked(Step(r, a))
  {
    var q := Step(r, a);
    if a.AcceptNext? && IsValidHandle(Issued(r.table)) {
      var h := Issued(r.table);
      assert h !in r.issued;
      forall g | Resolves(q.table, g) ensures g in q.issued {
        if g != h {
          assert Resolves(r.table, g);
        }
      }
    } else if a.EndConnection? && Resolves(r.table, a.handle) {
      forall g | g in q.issued ensures if g in q.ended then Dead(q.table, g) else Resolves(q.table, g) {
        assert g in r.issued;
      }
      forall g | Resolves(q.table, g) ensures g in q.issued {
        assert Resolves(r.table, g);
      }
    }
  }

  /**
   Over every run each (slot, generation) pair is issued at most once, and a handle resolves
   exactly from its issue to the end of its connection: stale handles fail closed for ever,
   past the wrap of the generation counter included.
   */
  lemma {:induction false} HandlesAreNeverReused(actions: seq<Action>)
    ensures var r := Play(actions);
            && Tracked(r)
            && (forall i, j :: 0 <= i < j < |r.issued| ==> r.issued[i] != r.issued[j])
            && (forall h :: Resolves(r.table, h) <==> h in r.issued && h !in r.ended)
  {
    if actions != [] {
      HandlesAreNeverReused(actions[..|actions| - 1]);
      StepTracks(Play(actions[..|actions| - 1]), actions[|actions| - 1]);
    }
  }

  /** Ending the last generation of a slot retires it: nothing it issued, or could issue, resolves again. */
  lemma LastGenerationRetiresTheSlot(t: seq<Slot>, h: ConnectionHandle)
    requires IsTable(t) && Resolves(t, h) && h.generation == LAST_GENERATION
    ensures var u := Aborted(t, h);
            u[h.slot].retired && FirstReusable(u) != h.slot && forall g: ConnectionHandle :: g.slot == h.slot ==> !Resolves(u, g)
  {
  }

  /** Accepting occupies one more slot, and no handle that resolved stops doing so. */
  lemma AcceptOccupies(t: seq<Slot>)
    requires IsTable(t) && IsValidHandle(Issued(t))
    ensures var u := Accepted(t);
            && IsTable(u) && Occupied(u) == Occupied(t) + 1
            && !Resolves(t, Issued(t)) && Resolves(u, Issued(t))
            && forall g :: Resolves(t, g) ==> Resolves(u, g) && g.slot != Issued(t).slot
  {
    assert t == [t[0], t[1]];
  }

  /** Ending a connection frees exactly its slot. */
  lemma AbortFrees(t: seq<Slot>, h: ConnectionHandle)
    requires IsTable(t) && Resolves(t, h)
    ensures var u := Aborted(t, h);
            && IsTable(u) && Occupied(u) == Occupied(t) - 1 && !Resolves(u, h)
            && forall g :: g != h ==> (Resolves(u, g) <==> Resolves(t, g))
  {
    assert t == [t[0], t[1]];
  }

  /** The dead stay dead, and ending a connection kills its handle. */
  lemma AcceptKeepsDead(t: seq<Slot>, h: ConnectionHandle)
    requires IsTable(t) && Dead(t, h)
    ensures Dead(Accepted(t), h)
  {
  }

  lemma AbortKeepsDead(t: seq<Slot>, g: ConnectionHandle, h: ConnectionHandle)
    requires IsTable(t) && Dead(t, h)
    ensures Dead(Aborted(t, g), h) && !Resolves(t, h)
  {
  }

  lemma AbortKills(t: seq<Slot>, h: ConnectionHandle)
    requires IsTable(t) && Resolves(t, h)
    ensures Dead(Aborted(t, h), h) && !Dead(t, h)
  {
  }

  // ---------------------------------------------------------------------------------------
  // The adapter's slot array.

  class NetworkServer {
    const slots: array<Slot>

    ghost predicate Valid()
      reads this, slots
    {
      IsTable(slots[..])
    }

    ghost function Model(): seq<Slot>
      reads this, slots
    {
      slots[..]
    }

    constructor ()
      ensures Valid() && Model() == NO_CONNECTIONS
      ensures fresh(slots)
    {
      slots := new Slot[SLOT_COUNT](_ => Slot(0, false, false));
      new;
      assert slots[..] == NO_CONNECTIONS;
    }

    method FirstReusableSlot() returns (index: nat)
      requires Valid()
      ensures index == FirstReusable(Model())
    {
      index := 0;
      while index < slots.Length
        invariant index <= slots.Length
        invariant forall j :: 0 <= j < index ==> !Reusable(slots[j])
      {
        if !slots[index].active && !slots[index].retired {
          return;
        }
        index := index + 1;
      }
    }

    /** `client` says whether the listener has a client waiting. */
    method HasPendingConnection(listening: bool, client: bool) returns (pending: bool)
      requires Valid()
      ensures pending <==> listening && client && exists i :: 0 <= i < SLOT_COUNT && Reusable(Model()[i])
    {
      var index := FirstReusableSlot();
      if !listening || index >= slots.Length {
        return false;
      }
      assert Reusable(Model()[index]);
      return client;
    }

    method Accept(listening: bool, client: bool) returns (h: ConnectionHandle)
      requires Valid()
      modifies slots
      ensures Valid()
      ensures if listening && client then h == Issued(old(Model())) && Model() == Accepted(old(Model()))
              else h == INVALID_CONNECTION && Model() == old(Model())
    {
      var pending := HasPendingConnection(listening, client);
      if !pending {
        assert listening && client ==> FirstReusable(Model()) == |Model()|;
        return INVALID_CONNECTION;
      }
      var index := FirstReusableSlot();
      if index >= slots.Length {
        return INVALID_CONNECTION;
      }
      if slots[index].generation == 0 {
        slots[index] := slots[index].(generation := 1);
      }
      slots[index] := slots[index].(active := true);
      return ConnectionHandle(index, slots[index].generation);
    }

    method Transport(h: ConnectionHandle) returns (slot: Option<nat>)
      requires Valid()
      ensures slot == Lookup(Model(), h)
    {
      if !IsValidHandle(h) || h.slot >= slots.Length {
        return None;
      }
      var s := slots[h.slot];
      if !s.active || s.retired || s.generation != h.generation {
        return None;
      }
      return Some(h.slot);
    }

    method Abort(h: ConnectionHandle)
      requires Valid()
      modifies slots
      ensures Valid() && Model() == Aborted(old(Model()), h)
    {
      var slot := Transport(h);
      if slot == None {
        return;
      }
      Invalidate(slot.value);
    }

    /** The source's second wrap test, after the increment, can never fire and is not repeated here. */
    method Invalidate(index: nat)
      requires Valid() && index < slots.Length
      modifies slots
      ensures Valid() && Model() == old(Model())[index := Invalidated(old(Model())[index])]
    {
      slots[index] := slots[index].(active := false);
      if slots[index].generation == LAST_GENERATION {
        slots[index] := slots[index].(generation := 0, retired := true);
        return;
      }
      slots[index] := slots[index].(generation := (slots[index].generation + 1) % TWO_32);
    }
  }
}
