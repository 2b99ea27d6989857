/**
 * `MapperFactory`: a mutable registry. `register` adds one converter under
 * the key of its declared pair, refusing a pair that is already taken, and
 * binds the converter to the factory; the factory itself resolves values.
 */
module Factory {
  import opened Runtime
  import opened ZebraUtils
  import opened Mappers
  import opened Resolution

  const NullMapper := Exception(NullPointer, "Null Mapper can't be registered.")

  /** The failure for a second converter of the same pair, naming both
      classes by their simple names. */
  function AlreadyRegistered(c: Mapper): (e: Exception) {
    Exception(UnsupportedOperation,
      "A Mapper<" + c.source.simpleName + ", " + c.destination.simpleName + "> is already registered.")
  }

  /** What `register` does to the store, and what it reports. */
  function Insert(store: Store, c: Mapper?): (res: (Outcome, Store))
    ensures c == null ==> res == (Fail(NullMapper), store)
    ensures c != null && MapperKey(c.source, c.destination) in store ==> res == (Fail(AlreadyRegistered(c)), store)
    ensures res.0.Pass? <==> c != null && MapperKey(c.source, c.destination) !in store
    // on success exactly one entry is added, the new converter under its own key
    ensures res.0.Pass? ==> c != null && res.1.Keys == store.Keys + {MapperKey(c.source, c.destination)}
    ensures res.0.Pass? ==> c != null && res.1[MapperKey(c.source, c.destination)] == c
    ensures forall k :: k in store ==> k in res.1 && res.1[k] == store[k]
    ensures WellKeyed(store) ==> WellKeyed(res.1)
  {
    if c == null then (Fail(NullMapper), store)
    else
      var key := MapperKey(c.source, c.destination);
      if key in store then (Fail(AlreadyRegistered(c)), store)
      else (Pass, store[key := c])
  }

  /** What `registerAll` does: `register` on each element in order; the
      first failure ends the call and what was added before it stays. */
  function InsertAll(store: Store, cs: seq<Mapper?>): (res: (Outcome, Store))
    ensures forall k :: k in store ==> k in res.1 && res.1[k] == store[k]
    ensures WellKeyed(store) ==> WellKeyed(res.1)
    ensures forall k :: k in res.1 && k !in store ==> res.1[k] in cs
    decreases |cs|
  {
    if cs == [] then (Pass, store)
    else
      var (o, next) := Insert(store, cs[0]);
      if o.Fail? then (o, store)
      else InsertAll(next, cs[1..])
  }

  /** The keys a list of converters would occupy. */
  ghost function KeysOf(cs: seq<Mapper?>): set<string> {
    set i | 0 <= i < |cs| && cs[i] != null :: MapperKey(cs[i].source, cs[i].destination)
  }

  /** Every converter is present, none is for a pair already in the store,
      and no two of them are for the same pair. */
  ghost predicate Registrable(store: Store, cs: seq<Mapper?>) {
    && (forall i :: 0 <= i < |cs| ==> cs[i] != null)
    && (forall i :: 0 <= i < |cs| ==> MapperKey(cs[i].source, cs[i].destination) !in store)
    && (forall i, j :: 0 <= i < j < |cs| ==>
          MapperKey(cs[i].source, cs[i].destination) != MapperKey(cs[j].source, cs[j].destination))
  }

  /** The keys of a non-empty list: its head's key and the rest's keys. */
  lemma KeysOfCons(cs: seq<Mapper?>)
    requires cs != [] && cs[0] != null
    ensures KeysOf(cs) == {MapperKey(cs[0].source, cs[0].destination)} + KeysOf(cs[1..])
  {
  }

  /** A list is registrable iff its head can be inserted and the rest is
      registrable in the store that results. */
  lemma RegistrableCons(store: Store, cs: seq<Mapper?>)
    requires cs != [] && cs[0] != null && MapperKey(cs[0].source, cs[0].destination) !in store
    ensures Registrable(store, cs) <==>
              Registrable(store[MapperKey(cs[0].source, cs[0].destination) := cs[0]], cs[1..])
  {
  }

  /** `registerAll` succeeds exactly when the list is registrable, and then
      the store gains exactly the list's keys. */
  lemma {:induction false} InsertAllSucceedsIff(store: Store, cs: seq<Mapper?>)
    ensures InsertAll(store, cs).0.Pass? <==> Registrable(store, cs)
    ensures InsertAll(store, cs).0.Pass? ==> InsertAll(store, cs).1.Keys == store.Keys + KeysOf(cs)
    decreases |cs|
  {
    if cs != [] {
      var c := cs[0];
      if c != null && MapperKey(c.source, c.destination) !in store {
        var next := Insert(store, c).1;
        InsertAllSucceedsIff(next, cs[1..]);
        RegistrableCons(store, cs);
        KeysOfCons(cs);
      }
    }
  }

  /** `registerAll` stopped at element `j`: every element before it was
      registered, `cs[j]` was refused, and the call reports that refusal and
      keeps the store the elements before it produced. */
  ghost predicate StoppedAt(store: Store, cs: seq<Mapper?>, j: int) {
    && 0 <= j < |cs|
    && var before := InsertAll(store, cs[..j]);
       && before.0.Pass?
       && Insert(before.1, cs[j]).0.Fail?
       && InsertAll(store, cs) == (Insert(before.1, cs[j]).0, before.1)
  }

  /** `registerAll` fails exactly when it stops at a refused element: the
      registrations before it stay, nothing after it is attempted, and the
      exception is that element's own. */
  lemma {:induction false} InsertAllFailsAtRefusal(store: Store, cs: seq<Mapper?>)
    ensures InsertAll(store, cs).0.Fail? <==> exists j :: StoppedAt(store, cs, j)
    decreases |cs|
  {
    if cs != [] {
      var (o, next) := Insert(store, cs[0]);
      assert cs[..0] == [];
      if o.Fail? {
        assert StoppedAt(store, cs, 0);
      } else {
        InsertAllFailsAtRefusal(next, cs[1..]);
        if InsertAll(store, cs).0.Fail? {
          var j :| StoppedAt(next, cs[1..], j);
          assert cs[..j + 1][0] == cs[0] && cs[..j + 1][1..] == cs[1..][..j];
          assert StoppedAt(store, cs, j + 1);
        }
      }
    }
  }

  /** Once `register` has accepted a converter for (A, B), mapping an A to B
      runs that converter's forward transform. */
  lemma ForwardAfterRegister(store: Store, c: Mapper, a: Value)
    requires Insert(store, c).0.Pass?
    requires a.Obj? && a.cls == c.source
    ensures Dispatch(Insert(store, c).1, a, Some(c.destination)) == c.MapAToB(a)
  {
  }

  /** Once `register` has accepted a converter for (A, B), mapping a B to A
      runs its backward transform, and fails with "method not implemented."
      when it has none, provided nothing is registered for (B, A) and the
      names keep keys apart. */
  lemma BackwardAfterRegister(store: Store, c: Mapper, b: Value)
    requires WellKeyed(store) && UnderscoreFreeSources(store)
    requires NoUnderscore(c.source.name) && NoUnderscore(c.destination.name) && c.source.name != c.destination.name
    requires forall k :: k in store ==> !(store[k].source.name == c.destination.name && store[k].destination.name == c.source.name)
    requires Insert(store, c).0.Pass?
    requires b.Obj? && b.cls == c.destination
    ensures Dispatch(Insert(store, c).1, b, Some(c.source)) == c.MapBToA(b)
    ensures c.backward.None? ==> Dispatch(Insert(store, c).1, b, Some(c.source)) == Err(NotImplemented)
  {
  }

  /** For a converter whose backward transform undoes its forward one on
      `a`, mapping A to B and back again returns `a`. */
  lemma RoundTripAfterRegister(store: Store, c: Mapper, a: Value, b: Value)
    requires WellKeyed(store) && UnderscoreFreeSources(store)
    requires NoUnderscore(c.source.name) && NoUnderscore(c.destination.name) && c.source.name != c.destination.name
    requires forall k :: k in store ==> !(store[k].source.name == c.destination.name && store[k].destination.name == c.source.name)
    requires Insert(store, c).0.Pass?
    requires a.Obj? && a.cls == c.source
    requires c.MapAToB(a) == Ok(b) && b.Obj? && b.cls == c.destination
    requires c.MapBToA(b) == Ok(a)
    ensures Dispatch(Insert(store, c).1, a, Some(c.destination)) == Ok(b)
    ensures Dispatch(Insert(store, c).1, b, Some(c.source)) == Ok(a)
  {
  }

  /** Without '_'-free names, registration misroutes: with a converter for
      ("x", "x_x") registered, mapping an "x_x" object to "x" selects that
      converter and calls its forward transform instead of its backward one,
      because both directions share one key. */
  lemma MisroutedByKeyCollision(c: Mapper, v: Value)
    requires c.source.name == "x" && c.destination.name == "x_x"
    requires v.Obj? && v.cls.name == "x_x"
    ensures Dispatch(Insert(map[], c).1, v, Some(c.source)) == c.MapAToB(v)
  {
    assert MapperKey(v.cls, c.source) == MapperKey(c.source, c.destination);
  }

  /** `after` keeps every entry of `before`. */
  ghost predicate Extends(before: Store, after: Store) {
    forall k :: k in before ==> k in after && after[k] == before[k]
  }

  /** The converters of `cs` that did not go into the store between
      `before` and `after`: for `registerAll`, the refused one and those after it. */
  ghost function Refused(before: Store, after: Store, cs: seq<Mapper?>): set<Mapper> {
    set c: Mapper | c in cs && forall k :: k in after && k !in before ==> after[k] != c
  }

  /** One more `register` only shrinks the refused set, and an accepted
      converter leaves it. */
  lemma RefusedAfterInsert(before: Store, store: Store, c: Mapper?, cs: seq<Mapper?>)
    requires Extends(before, store)
    ensures Refused(before, Insert(store, c).1, cs) <= Refused(before, store, cs)
    ensures Insert(store, c).0.Pass? ==> c !in Refused(before, Insert(store, c).1, cs)
  {
  }

  class MapperFactory {
    /** The registry: key of a declared pair -> its converter. */
    var store: Store

    ghost predicate Valid()
      reads this
    {
      WellKeyed(store)
    }

    constructor ()
      ensures Valid() && store == map[]
    {
      store := map[];
    }

    /** Registers `c` under the key of its declared pair, binding it to this
        factory first; a null or already-taken pair leaves everything as it was. */
    method Register(c: Mapper?) returns (r: Outcome)
      requires Valid()
      modifies this, c
      ensures Valid()
      ensures (r, store) == Insert(old(store), c)
      ensures r.Pass? ==> c != null && c.mapper == this
      ensures r.Fail? && c != null ==> unchanged(c)
    {
      if c == null {
        return Fail(NullMapper);
      }
      var key := MapperKey(c.source, c.destination);
      if key in store {
        return Fail(AlreadyRegistered(c));
      }
      c.SetMapper(this);
      store := store[key := c];
      r := Pass;
    }

    /** Registers each converter in order, stopping at the first failure. */
    method RegisterAll(cs: seq<Mapper?>) returns (r: Outcome)
      requires Valid()
      modifies this, cs
      ensures Valid()
      ensures (r, store) == InsertAll(old(store), cs)
      ensures forall k :: k in store && k !in old(store) ==> store[k].mapper == this
      // the refused converter and every one after it stay as they were
      ensures unchanged(Refused(old(store), store, cs))
    {
      r := Pass;
      var i := 0;
      while i < |cs|
        invariant 0 <= i <= |cs|
        invariant Valid()
        invariant InsertAll(old(store), cs) == InsertAll(store, cs[i..])
        invariant r == Pass
        invariant Extends(old(store), store)
        invariant forall k :: k in store && k !in old(store) ==> store[k].mapper == this
        invariant unchanged(Refused(old(store), store, cs))
      {
        assert cs[i..][0] == cs[i] && cs[i..][1..] == cs[i + 1..];
        ghost var pre := store;
        r := Register(cs[i]);
        if r.Fail? {
          return;
        }
        RefusedAfterInsert(old(store), pre, cs[i], cs);
        i := i + 1;
      }
    }

    /** Single-value mapping over this factory's registry. */
    function Map(source: Value, destination: Option<TypeId>): (r: Result<Value>)
      reads this
      ensures source.Null? ==> r == Ok(Null)
    {
      Dispatch(store, source, destination)
    }

    /** List mapping over this factory's registry: null for a null list,
        otherwise the images of the elements in order, or the first failure. */
    method MapList(sources: Option<seq<Value>>, destination: Option<TypeId>) returns (r: Result<Option<seq<Value>>>)
      ensures r == ListMapping(store, sources, destination)
    {
      if sources.None? {
        return Ok(None);
      }
      var s := sources.value;
      var out: seq<Value> := [];
      var i := 0;
      while i < |s|
        invariant 0 <= i <= |s|
        invariant MapEach(store, s[..i], destination) == Ok(out)
      {
        var v := Map(s[i], destination);
        MapEachStep(store, s, i, destination, out);
        if v.Err? {
          return Err(v.error);
        }
        out := out + [v.value];
        i := i + 1;
      }
      assert s[..i] == s;
      r := Ok(Some(out));
    }
  }
}
