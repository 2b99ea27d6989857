/**
 * `MapperProcessor`: a resolver over a store fixed at construction. The
 * constructor copies the given store and binds every converter in it to the
 * new processor; afterwards no operation writes the store.
 */
module Processor {
  import opened Runtime
  import opened ZebraUtils
  import opened Mappers
  import opened Resolution

  const NullStore := Exception(NullPointer, "Mappers store must be not null.")

  /** How a container class behaves under `add`: a list keeps every element,
      a set keeps one copy of each. */
  datatype CollectionKind = ListKind | SetKind

  /** The collection class a caller names: one whose capacity constructor
      works, or one whose construction throws with the given message. */
  datatype CollectionClass = Instantiable(kind: CollectionKind) | NotInstantiable(message: string)

  /** A sequence in which no value occurs twice. */
  ghost predicate NoDuplicates(s: seq<Value>) {
    forall i, j :: 0 <= i < j < |s| ==> s[i] != s[j]
  }

  /** One `add` on a container of the given kind. */
  function Add(kind: CollectionKind, acc: seq<Value>, v: Value): (r: seq<Value>)
    ensures forall x :: x in r <==> x in acc || x == v
    ensures kind == ListKind ==> r == acc + [v]
    ensures kind == SetKind && NoDuplicates(acc) ==> NoDuplicates(r)
  {
    if kind == SetKind && v in acc then acc else acc + [v]
  }

  /** The container after adding `vs` in order to a fresh one. */
  function Collect(kind: CollectionKind, vs: seq<Value>): (r: seq<Value>)
    ensures kind == ListKind ==> r == vs
    ensures forall v :: v in r <==> v in vs
    ensures kind == SetKind ==> NoDuplicates(r)
    decreases |vs|
  {
    if vs == [] then []
    else
      var init := vs[..|vs| - 1];
      assert vs == init + [vs[|vs| - 1]];
      Add(kind, Collect(kind, init), vs[|vs| - 1])
  }

  /** Adding one more value to a container built from `vs`. */
  lemma CollectExtend(kind: CollectionKind, vs: seq<Value>, v: Value)
    ensures Collect(kind, vs + [v]) == Add(kind, Collect(kind, vs), v)
  {
    assert (vs + [v])[..|vs|] == vs;
  }

  /** Collection mapping: null for a null source; otherwise the container
      class must be constructible, and then the images of the elements in
      order are added to a fresh container, or the first failure is reported. */
  function CollectionMapping(store: Store, sources: Option<seq<Value>>, destination: Option<TypeId>,
                             impl: CollectionClass): (r: Result<Option<seq<Value>>>)
    // null comes back for a null source and only then
    ensures sources.None? <==> r == Ok(None)
    // the container class is tried before any element is mapped
    ensures sources.Some? && impl.NotInstantiable? ==> r == Err(Exception(IllegalState, impl.message))
  {
    match sources
    case None => Ok(None)
    case Some(s) =>
      match impl
      case NotInstantiable(m) => Err(Exception(IllegalState, m))
      case Instantiable(kind) =>
        match MapEach(store, s, destination)
        case Err(e) => Err(e)
        case Ok(vs) => Ok(Some(Collect(kind, vs)))
  }

  /** Mapping into a list-like container gives the same elements as list
      mapping; into a set-like one, the same values without repeats. */
  lemma CollectionMatchesList(store: Store, sources: Option<seq<Value>>, destination: Option<TypeId>, kind: CollectionKind)
    ensures var c := CollectionMapping(store, sources, destination, Instantiable(kind));
            var l := ListMapping(store, sources, destination);
            && (kind == ListKind ==> c == l)
            && (c.Err? <==> l.Err?)
            && (c.Err? ==> c == l)
            && (c.Ok? ==> (c.value.Some? <==> l.value.Some?))
            && (c.Ok? && c.value.Some? && l.value.Some? ==>
                  (forall v :: v in c.value.value <==> v in l.value.value)
                  && (kind == SetKind ==> NoDuplicates(c.value.value)))
  {
  }

  class MapperProcessor {
    /** The store, a copy of the one given at construction; never reassigned. */
    const mappers: Store

    constructor (input: Store)
      modifies input.Values
      ensures mappers == input
      ensures forall c :: c in input.Values ==> c.mapper == this
    {
      mappers := input;
      new;
      var todo := input.Keys;
      while todo != {}
        invariant todo <= input.Keys
        invariant forall k :: k in input.Keys - todo ==> input[k].mapper == this
        decreases todo
      {
        var k :| k in todo;
        input[k].SetMapper(this);
        todo := todo - {k};
      }
    }

    /** Construction from a store that may be null. */
    static method Create(input: Option<Store>) returns (r: Result<MapperProcessor>)
      modifies if input.Some? then input.value.Values else {}
      ensures input.None? ==> r == Err(NullStore)
      ensures input.Some? ==> r.Ok? && fresh(r.value) && r.value.mappers == input.value
      ensures input.Some? && r.Ok? ==> forall c :: c in input.value.Values ==> c.mapper == r.value
    {
      if input.None? {
        return Err(NullStore);
      }
      var p := new MapperProcessor(input.value);
      r := Ok(p);
    }

    /** Single-value mapping over this processor's store. */
    function Map(source: Value, destination: Option<TypeId>): (r: Result<Value>)
      ensures source.Null? ==> r == Ok(Null)
    {
      Dispatch(mappers, source, destination)
    }

    /** List mapping over this processor's store. */
    method MapList(sources: Option<seq<Value>>, destination: Option<TypeId>) returns (r: Result<Option<seq<Value>>>)
      ensures r == ListMapping(mappers, sources, destination)
    {
      if sources.None? {
        return Ok(None);
      }
      var s := sources.value;
      var out: seq<Value> := [];
      var i := 0;
      while i < |s|
        invariant 0 <= i <= |s|
        invariant MapEach(mappers, s[..i], destination) == Ok(out)
      {
        var v := Map(s[i], destination);
        MapEachStep(mappers, s, i, destination, out);
        if v.Err? {
          return Err(v.error);
        }
        out := out + [v.value];
        i := i + 1;
      }
      assert s[..i] == s;
      r := Ok(Some(out));
    }

    /** Collection mapping over this processor's store, into a fresh
        container of the class `impl`. */
    method MapCollection(sources: Option<seq<Value>>, destination: Option<TypeId>, impl: CollectionClass)
      returns (r: Result<Option<seq<Value>>>)
      ensures r == CollectionMapping(mappers, sources, destination, impl)
    {
      if sources.None? {
        return Ok(None);
      }
      if impl.NotInstantiable? {
        return Err(Exception(IllegalState, impl.message));
      }
      var s, kind := sources.value, impl.kind;
      var container: seq<Value> := [];
      ghost var mapped: seq<Value> := [];
      var i := 0;
      while i < |s|
        invariant 0 <= i <= |s|
        invariant MapEach(mappers, s[..i], destination) == Ok(mapped)
        invariant container == Collect(kind, mapped)
      {
        var v := Map(s[i], destination);
        MapEachStep(mappers, s, i, destination, mapped);
        if v.Err? {
          return Err(v.error);
        }
        CollectExtend(kind, mapped, v.value);
        container := Add(kind, container, v.value);
        mapped := mapped + [v.value];
        i := i + 1;
      }
      assert s[..i] == s;
      r := Ok(Some(container));
    }
  }
}
