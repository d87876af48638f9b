/**
 One slot of the Kubernetes object store: optimistic concurrency by version, status as a separate
 subresource, and deletion that waits for finalizers.  A call may fail before or after taking effect.
 */
module ObjectStore {
  import opened Text
  import opened Api

  /** `Dropped`: the call never reached the store.  `ReplyLost`: it took effect, but the caller sees an error. */
  datatype Fault = Fine | Dropped | ReplyLost

  datatype Reply<+O> = Done(obj: O) | NotFound | Exists | Conflict | Invalid | Unknown

  datatype Found<+O> = Present(obj: O) | Absent | Unreadable

  type Slot<S, T> = Option<Object<S, T>>

  datatype Write<S, T> = Write(slot: Slot<S, T>, reply: Reply<Object<S, T>>)

  function Read<S, T>(slot: Slot<S, T>, fault: Fault): Found<Object<S, T>>
  {
    if fault != Fine then Unreadable
    else match slot
         case None => Absent
         case Some(o) => Present(o)
  }

  function Created<S(==), T(==)>(slot: Slot<S, T>, o: Object<S, T>, clock: nat): Write<S, T>
  {
    if o.meta.name == "" then Write(slot, Invalid)
    else if slot.Some? then Write(slot, Exists)
    else
      var stored := o.(meta := o.meta.(uid := clock + 1, version := clock + 1, deleting := false));
      Write(Some(stored), Done(stored))
  }

  predicate AddsFinalizer(before: Meta, after: Meta)
  {
    exists f | f in after.finalizers :: f !in before.finalizers
  }

  /** Write `content` over `stored`: identical content changes nothing, and a deleted object without finalizers goes. */
  function Committed<S(==), T(==)>(stored: Object<S, T>, content: Object<S, T>, clock: nat): Write<S, T>
  {
    var next := content.(meta := content.meta.(version := clock + 1));
    if content == stored then Write(Some(stored), Done(stored))
    else if next.meta.deleting && next.meta.finalizers == [] then Write(None, Done(next))
    else Write(Some(next), Done(next))
  }

  /** A full update: everything but identity, deletion mark and status comes from the caller. */
  function Replaced<S(==), T(==)>(slot: Slot<S, T>, o: Object<S, T>, clock: nat): Write<S, T>
  {
    if slot.None? then Write(slot, NotFound)
    else
      var stored := slot.value;
      if o.meta.version != stored.meta.version then Write(slot, Conflict)
      else if stored.meta.deleting && AddsFinalizer(stored.meta, o.meta) then Write(slot, Invalid)
      else
        var meta := o.meta.(uid := stored.meta.uid, deleting := stored.meta.deleting);
        Committed(stored, Object(meta, o.spec, stored.status), clock)
  }

  /** A status update: only the status comes from the caller. */
  function StatusReplaced<S(==), T(==)>(slot: Slot<S, T>, o: Object<S, T>, clock: nat): Write<S, T>
  {
    if slot.None? then Write(slot, NotFound)
    else if o.meta.version != slot.value.meta.version then Write(slot, Conflict)
    else Committed(slot.value, slot.value.(status := o.status), clock)
  }

  /** Deletion: at once without finalizers, otherwise a mark. */
  function DeletionRequested<S(==), T(==)>(slot: Slot<S, T>, clock: nat): Slot<S, T>
  {
    if slot.None? || slot.value.meta.finalizers == [] then None
    else if slot.value.meta.deleting then slot
    else Some(slot.value.(meta := slot.value.meta.(deleting := true, version := clock + 1)))
  }

  /** A call under a fault. */
  function Attempt<S, T>(before: Slot<S, T>, w: Write<S, T>, fault: Fault): Write<S, T>
  {
    match fault
    case Fine => w
    case Dropped => Write(before, Unknown)
    case ReplyLost => Write(w.slot, Unknown)
  }

  function Tick<S(==), T(==)>(before: Slot<S, T>, after: Slot<S, T>, clock: nat): nat
  {
    if before == after then clock else clock + 1
  }

  // ----- Versions tell contents apart -----

  /** How a slot may move on: unchanged, gone, or with a version newer than anything before. */
  ghost predicate Evolves<S, T>(a: Slot<S, T>, clockA: nat, b: Slot<S, T>, clockB: nat)
  {
    clockA <= clockB && (a == b || b.None? || clockA < b.value.meta.version <= clockB)
  }

  ghost predicate Stamped<S, T>(slot: Slot<S, T>, clock: nat)
  {
    slot.Some? ==> 0 < slot.value.meta.version <= clock
  }

  /** A copy read earlier: if the slot still has its version, it still has its content. */
  ghost predicate Copy<S, T>(o: Object<S, T>, slot: Slot<S, T>, clock: nat)
  {
    && o.meta.version <= clock
    && (slot.Some? && slot.value.meta.version == o.meta.version ==> slot.value == o)
  }

  lemma CopySurvives<S, T>(o: Object<S, T>, a: Slot<S, T>, clockA: nat, b: Slot<S, T>, clockB: nat)
    requires Copy(o, a, clockA) && Evolves(a, clockA, b, clockB)
    ensures Copy(o, b, clockB)
  {
  }

  lemma CreateEvolves<S, T>(slot: Slot<S, T>, o: Object<S, T>, clock: nat, fault: Fault)
    requires Stamped(slot, clock)
    ensures var r := Attempt(slot, Created(slot, o, clock), fault); var after := Tick(slot, r.slot, clock);
      && Evolves(slot, clock, r.slot, after) && Stamped(r.slot, after)
      && (r.reply.Done? ==>
            && Copy(r.reply.obj, r.slot, after) && r.slot == Some(r.reply.obj) && slot.None?
            && r.reply.obj == o.(meta := o.meta.(uid := clock + 1, version := clock + 1, deleting := false)))
  {
  }

  lemma ReplaceEvolves<S, T>(slot: Slot<S, T>, o: Object<S, T>, clock: nat, fault: Fault)
    requires Stamped(slot, clock)
    ensures var r := Attempt(slot, Replaced(slot, o, clock), fault); var after := Tick(slot, r.slot, clock);
      && Evolves(slot, clock, r.slot, after) && Stamped(r.slot, after)
      && (r.reply.Done? ==> Copy(r.reply.obj, r.slot, after))
      && (r.slot != slot ==> slot.Some? && o.meta.version == slot.value.meta.version)
  {
  }

  lemma StatusEvolves<S, T>(slot: Slot<S, T>, o: Object<S, T>, clock: nat, fault: Fault)
    requires Stamped(slot, clock)
    ensures var r := Attempt(slot, StatusReplaced(slot, o, clock), fault); var after := Tick(slot, r.slot, clock);
      && Evolves(slot, clock, r.slot, after) && Stamped(r.slot, after)
      && (r.reply.Done? ==> Copy(r.reply.obj, r.slot, after))
      && (r.slot != slot ==> slot.Some? && o.meta.version == slot.value.meta.version)
  {
  }

  lemma DeleteEvolves<S, T>(slot: Slot<S, T>, clock: nat)
    requires Stamped(slot, clock)
    ensures var after := Tick(slot, DeletionRequested(slot, clock), clock);
      Evolves(slot, clock, DeletionRequested(slot, clock), after) && Stamped(DeletionRequested(slot, clock), after)
  {
  }

  // ----- Finalizers -----

  function Remove(list: seq<string>, f: string): seq<string>
  {
    if list == [] then [] else (if list[0] == f then [] else [list[0]]) + Remove(list[1..], f)
  }

  function WithFinalizer<S, T>(o: Object<S, T>, f: string): Object<S, T>
  {
    if f in o.meta.finalizers then o else o.(meta := o.meta.(finalizers := o.meta.finalizers + [f]))
  }

  function WithoutFinalizer<S, T>(o: Object<S, T>, f: string): Object<S, T>
  {
    o.(meta := o.meta.(finalizers := Remove(o.meta.finalizers, f)))
  }

  lemma {:induction false} RemoveKeeps(list: seq<string>, f: string)
    ensures forall x :: x in Remove(list, f) <==> x in list && x != f
    ensures multiset(Remove(list, f)) == multiset(list)[f := 0]
  {
    if list != [] {
      assert list == [list[0]] + list[1..];
      RemoveKeeps(list[1..], f);
    }
  }
}
