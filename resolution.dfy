/**
 * Resolution: how a store of converters (key -> converter) turns a value
 * into a value of the requested class, one value at a time, a list at a
 * time, or into a freshly created collection. `MapperFactory` and
 * `MapperProcessor` contain this logic twice, line for line; it is stated
 * once here, over the store as a value, and both classes use it.
 */
module Resolution {
  import opened Runtime
  import opened ZebraUtils
  import opened Mappers

  type Store = map<string, Mapper>

  const NullDestination := Exception(NullPointer, "Destination Class Type must be not null.")

  /** The failure when neither direction of the pair has a converter. */
  function NoMapper(aTb: string, bTa: string): (e: Exception) {
    Exception(UnsupportedOperation, "No mapper defined for [" + aTb + "] or [" + bTa + "]")
  }

  /** Every converter is stored under the key of the pair it declares. */
  ghost predicate WellKeyed(store: Store) {
    forall k :: k in store ==> k == MapperKey(store[k].source, store[k].destination)
  }

  /** No converter in the store declares a source class whose name holds '_'. */
  ghost predicate UnderscoreFreeSources(store: Store) {
    forall k :: k in store ==> NoUnderscore(store[k].source.name)
  }

  /** Single-value mapping of `source` to the class `destination`. */
  function Dispatch(store: Store, source: Value, destination: Option<TypeId>): (r: Result<Value>)
    // a null source maps to null before anything else is looked at
    ensures source.Null? ==> r == Ok(Null)
    ensures source.Obj? && destination.None? ==> r == Err(NullDestination)
    // the forward converter wins, even when a backward one is also present
    ensures source.Obj? && destination.Some? && MapperKey(source.cls, destination.value) in store ==>
              r == store[MapperKey(source.cls, destination.value)].MapAToB(source)
    ensures source.Obj? && destination.Some? && MapperKey(source.cls, destination.value) !in store ==>
              var bTa := MapperKey(destination.value, source.cls);
              if bTa in store then r == store[bTa].MapBToA(source)
              else r == Err(NoMapper(MapperKey(source.cls, destination.value), bTa))
  {
    if source.Null? then Ok(Null)
    else if destination.None? then Err(NullDestination)
    else
      var aTb := MapperKey(source.cls, destination.value);
      var bTa := MapperKey(destination.value, source.cls);
      if aTb in store then store[aTb].MapAToB(source)
      else if bTa in store then store[bTa].MapBToA(source)
      else Err(NoMapper(aTb, bTa))
  }

  /** Element `i` is the first of `sources` whose mapping fails, and it fails with `e`. */
  ghost predicate FirstFailure(store: Store, sources: seq<Value>, destination: Option<TypeId>, i: int, e: Exception) {
    && 0 <= i < |sources|
    && Dispatch(store, sources[i], destination) == Err(e)
    && forall j :: 0 <= j < i ==> Dispatch(store, sources[j], destination).Ok?
  }

  /** Maps every element in order; the first element that fails makes the
      whole call fail with that element's exception. */
  function MapEach(store: Store, sources: seq<Value>, destination: Option<TypeId>): (r: Result<seq<Value>>)
    // one image per element, never a partial list
    ensures r.Ok? ==> |r.value| == |sources|
    decreases |sources|
  {
    if sources == [] then Ok([])
    else
      var n := |sources| - 1;
      match MapEach(store, sources[..n], destination)
      case Err(e) => Err(e)
      case Ok(vs) =>
        match Dispatch(store, sources[n], destination)
        case Err(e) => Err(e)
        case Ok(v) => Ok(vs + [v])
  }

  /** What element-wise mapping means: it succeeds iff every element maps;
      then it has one image per element, in order; otherwise it fails with
      the exception of the first element that fails. */
  lemma {:induction false} MapEachMeaning(store: Store, sources: seq<Value>, destination: Option<TypeId>)
    ensures var r := MapEach(store, sources, destination);
            && (r.Ok? <==> forall i :: 0 <= i < |sources| ==> Dispatch(store, sources[i], destination).Ok?)
            && (r.Ok? ==> |r.value| == |sources|)
            && (r.Ok? ==> forall i :: 0 <= i < |sources| ==> Dispatch(store, sources[i], destination) == Ok(r.value[i]))
            && (r.Err? ==> exists i :: FirstFailure(store, sources, destination, i, r.error))
    decreases |sources|
  {
    if sources != [] {
      var n := |sources| - 1;
      var init := sources[..n];
      MapEachMeaning(store, init, destination);
      assert forall i :: 0 <= i < n ==> init[i] == sources[i];
      match MapEach(store, init, destination)
      case Err(e) =>
        FirstFailureOfPrefix(store, sources, n, destination, e);
      case Ok(vs) =>
        match Dispatch(store, sources[n], destination)
        case Err(e) =>
          assert FirstFailure(store, sources, destination, n, e);
        case Ok(v) =>
      }
  }

  /** A first failure in a prefix is a first failure of the whole sequence. */
  lemma FirstFailureOfPrefix(store: Store, sources: seq<Value>, n: nat, destination: Option<TypeId>, e: Exception)
    requires n <= |sources|
    requires exists i :: FirstFailure(store, sources[..n], destination, i, e)
    ensures exists i :: FirstFailure(store, sources, destination, i, e)
  {
    var i :| FirstFailure(store, sources[..n], destination, i, e);
    assert FirstFailure(store, sources, destination, i, e);
  }

  /** Once a prefix fails, the whole sequence fails the same way: the
      elements after the first failure are never mapped. */
  lemma {:induction false} MapEachAbortsAtFailure(store: Store, sources: seq<Value>, n: nat, destination: Option<TypeId>)
    requires n <= |sources|
    requires MapEach(store, sources[..n], destination).Err?
    ensures MapEach(store, sources, destination) == MapEach(store, sources[..n], destination)
    decreases |sources| - n
  {
    if n < |sources| {
      var init := sources[..|sources| - 1];
      assert init[..n] == sources[..n];
      MapEachAbortsAtFailure(store, init, n, destination);
    } else {
      assert sources[..n] == sources;
    }
  }

  /** One step of a mapping loop: after a successful prefix, the next
      element's failure is the failure of the whole list, and its success
      extends the prefix by its image. */
  lemma MapEachStep(store: Store, sources: seq<Value>, n: nat, destination: Option<TypeId>, vs: seq<Value>)
    requires n < |sources|
    requires MapEach(store, sources[..n], destination) == Ok(vs)
    ensures var d := Dispatch(store, sources[n], destination);
            && (d.Err? ==> MapEach(store, sources, destination) == Err(d.error))
            && (d.Ok? ==> MapEach(store, sources[..n + 1], destination) == Ok(vs + [d.value]))
  {
    assert sources[..n + 1][..n] == sources[..n];
    if Dispatch(store, sources[n], destination).Err? {
      MapEachAbortsAtFailure(store, sources, n + 1, destination);
    }
  }

  /** A lookup by key, in a store whose converters sit under their own keys,
      finds a converter declared for exactly the looked-up pair, provided the
      source names are '_'-free. */
  lemma LookupMatchesDeclaredPair(store: Store, a: TypeId, b: TypeId)
    requires WellKeyed(store) && UnderscoreFreeSources(store) && NoUnderscore(a.name)
    requires MapperKey(a, b) in store
    ensures store[MapperKey(a, b)].source.name == a.name
    ensures store[MapperKey(a, b)].destination.name == b.name
  {
  }

  /** The failure an empty store gives for the classes of the library's own
      tests: fully qualified names, '$' for nested classes, joined by '_'. */
  lemma NoMapperMessageOnEmptyStore(state: int)
    ensures
      var s := "com.agileasoft.zebra.MapperFactoryTest$SourceObject";
      var d := "com.agileasoft.zebra.MapperFactoryTest$DestinationObject";
      Dispatch(map[], Obj(TypeId(s, "SourceObject"), state), Some(TypeId(d, "DestinationObject")))
        == Err(Exception(UnsupportedOperation, "No mapper defined for [" + (s + "_" + d) + "] or [" + (d + "_" + s) + "]"))
  {
  }

  /** List mapping: a null list maps to null, anything else element-wise. */
  function ListMapping(store: Store, sources: Option<seq<Value>>, destination: Option<TypeId>): (r: Result<Option<seq<Value>>>)
    ensures sources.None? <==> r == Ok(None)
  {
    match sources
    case None => Ok(None)
    case Some(s) =>
      match MapEach(store, s, destination)
      case Err(e) => Err(e)
      case Ok(vs) => Ok(Some(vs))
  }
}
