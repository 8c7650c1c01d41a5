/** The engine's native heap, seen as a table of live geometry handles. A
    handle is created when the engine builds or clones a geometry, and removed
    when its owner destroys it. A collection assembled from handles takes
    ownership of them: they stay live as its parts until the collection is
    destroyed. A fresh handle is never one that is live or owned, so two owners
    never share one. */
module Handles {
  import opened Shapes

  type Handle = nat

  /** A native geometry pointer as the binding holds it: null, or a handle. */
  datatype Ptr = Null | Ref(id: Handle)

  /** What a live handle holds: the geometry, its spatial reference id, and the
      handles it took ownership of when it was assembled (none otherwise). */
  datatype Native = Native(geom: Geom, srid: int, parts: seq<Handle>)

  /** The engine's default spatial reference id, which means "unset". */
  const DefaultSrid: int := 0

  /** The range of the engine's C `int`, in which SRIDs are stored. */
  predicate IsInt32(n: int)
  {
    -0x8000_0000 <= n < 0x8000_0000
  }

  /** No live entry is `h`, and no live entry owns `h`. */
  ghost predicate Unknown(h: Handle, store: map<Handle, Native>)
  {
    h !in store && forall k :: k in store ==> h !in store[k].parts
  }

  /** The step from `before` to `after` took ownership of the engine result `g`.
      A null result gives a null pointer and builds nothing. A geometry gives an
      unknown handle holding `g` and owning no parts; every other entry stays.
      The SRID is not stated. */
  ghost predicate Took(p: Ptr, g: Option<Geom>, before: map<Handle, Native>, after: map<Handle, Native>)
  {
    && (g.None? ==> p.Null? && after == before)
    && (g.Some? ==>
          && p.Ref? && Unknown(p.id, before) && p.id in after
          && after == before[p.id := after[p.id]]
          && after[p.id].geom == g.value && after[p.id].parts == [])
  }

  /** As `Took`, and the new handle's SRID is `srid`. */
  ghost predicate Adopted(p: Ptr, g: Option<Geom>, srid: int, before: map<Handle, Native>, after: map<Handle, Native>)
  {
    Took(p, g, before, after) && (g.Some? ==> after[p.id].srid == srid)
  }

  /** A live handle together with the parts it owns. */
  function Footprint(h: Handle, store: map<Handle, Native>): set<Handle>
    requires h in store
  {
    {h} + set q | q in store[h].parts
  }

  /** The geometries the given live handles hold, in order. */
  function PartGeoms(parts: seq<Handle>, store: map<Handle, Native>): (r: seq<Geom>)
    requires forall i :: 0 <= i < |parts| ==> parts[i] in store
    ensures |r| == |parts|
    ensures forall i :: 0 <= i < |parts| ==> r[i] == store[parts[i]].geom
  {
    seq(|parts|, i requires 0 <= i < |parts| => store[parts[i]].geom)
  }

  class Engine {
    var store: map<Handle, Native>
    var next: Handle

    /** Every live handle, and every part a live handle owns, is below `next`;
        every SRID is a C `int`. */
    ghost predicate Valid()
      reads this
    {
      forall h :: h in store ==>
        && h < next
        && (forall q :: q in store[h].parts ==> q < next)
        && IsInt32(store[h].srid)
    }

    constructor ()
      ensures Valid() && store == map[]
    {
      store := map[];
      next := 0;
    }

    /** The engine hands back the result of a construction, or null. */
    method Allocate(g: Option<Geom>, srid: int) returns (p: Ptr)
      requires Valid() && IsInt32(srid)
      modifies this
      ensures Valid()
      ensures Adopted(p, g, srid, old(store), store)
    {
      if g.None? {
        p := Null;
      } else {
        p := Ref(next);
        store := store[next := Native(g.value, srid, [])];
        next := next + 1;
      }
    }

    /** A deep copy of a live handle's geometry, SRID included, under a new
        handle. */
    method Clone(h: Handle) returns (c: Handle)
      requires Valid() && h in store
      modifies this
      ensures Valid()
      ensures Unknown(c, old(store))
      ensures store == old(store)[c := Native(old(store)[h].geom, old(store)[h].srid, [])]
    {
      c := next;
      store := store[c := Native(store[h].geom, store[h].srid, [])];
      next := next + 1;
    }

    /** Assemble a collection that takes ownership of `parts`: member i is the
        geometry of part i, and the parts stay live, owned by the new handle. */
    method Assemble(kind: CollectionKind, parts: seq<Handle>) returns (c: Handle)
      requires Valid()
      requires forall i :: 0 <= i < |parts| ==> parts[i] in store
      modifies this
      ensures Valid()
      ensures Unknown(c, old(store))
      ensures store == old(store)[c := Native(Collection(kind, PartGeoms(parts, old(store))), DefaultSrid, parts)]
    {
      c := next;
      store := store[c := Native(Collection(kind, PartGeoms(parts, store)), DefaultSrid, parts)];
      next := next + 1;
    }

    /** Release a pointer: a live handle leaves the table with the parts it
        owns; null is a no-op. */
    method Destroy(p: Ptr)
      requires Valid()
      requires p.Ref? ==> p.id in store
      modifies this
      ensures Valid()
      ensures store == if p.Ref? then old(store) - Footprint(p.id, old(store)) else old(store)
    {
      if p.Ref? {
        store := store - Footprint(p.id, store);
      }
    }

    /** Overwrite the SRID tag of a live handle; its geometry is untouched. */
    method SetSrid(h: Handle, srid: int)
      requires Valid() && h in store && IsInt32(srid)
      modifies this
      ensures Valid()
      ensures store == old(store)[h := old(store)[h].(srid := srid)]
    {
      store := store[h := store[h].(srid := srid)];
    }
  }
}
