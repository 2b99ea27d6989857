# Zebra mapper registry and dispatch, in Dafny

Zebra maps objects of one class to objects of another. An application writes
converters (`Mapper<A, B>`), each declared for one ordered class pair. It
registers them in a `MapperFactory` or hands a ready store to a
`MapperProcessor`. It then asks for `map(value, DestinationClass)`, and the
registry picks the converter from the runtime class of `value` and the
requested class. This project models that engine:

- **Keys** (`ZebraUtils`). The key of the pair (A, B) is `A.getName() + "_" + B.getName()`.
  `MapperFactory` has a private copy of this function that is identical, so
  both classes use `ZebraUtils.MapperKey` here.
- **Converters** (`Mappers.Mapper`). A class with the declared pair, an opaque
  forward transform, and an optional backward transform. A converter without
  its own backward transform fails with "method not implemented.". The class
  also has the back-reference `mapper` that `setMapper` assigns. `MapAToB` is
  the converter's own forward transform, abstract as in Java.
  `Factory.ForwardAfterRegister` states what the registry does with it.
- **Resolution** (`Resolution`). Both classes contain the same single-value
  dispatch and list mapping, line for line. It is written once here, over the
  store as a value:
  - `Dispatch` handles one value: null in gives null out, a null destination
    class is an error, the forward key is tried, then the backward key, else the
    "No mapper defined" error.
  - `MapEach` and `ListMapping` map a list element by element and stop at the
    first failure. `MapEachMeaning` states what that yields.
- **`Factory.MapperFactory`**. A class whose `store` field `Register` and
  `RegisterAll` update in place. `Insert` and `InsertAll` are the pure
  functions that specify those two methods.
- **`Processor.MapperProcessor`**. A class whose `mappers` field only the
  constructor writes. It copies the given store, and its loop binds every
  converter to the new processor. It has the same `Map`/`MapList` as the
  factory, plus `MapCollection`, which fills a fresh list-like or set-like
  container.

Java exceptions are values: `Result`/`Outcome` carry an `Exception` with a kind
(`NullPointer`, `UnsupportedOperation`, `IllegalState`) and the exact message.
Java `null` is `Value.Null`, `Option.None`, or a null `Mapper?` reference.

Where the library's tests and its code disagree, the model follows the code:
- A second registration of the same pair throws `UnsupportedOperationException`
  (MapperFactory.java:26-28). The test at MapperFactoryTest.java:83-88 expects
  `IllegalStateException`.
- `setMapper` assigns unconditionally (Mapper.java:19-21), so binding a
  converter twice just rebinds it. The test at MapperTest.java:21-25 expects a
  second call to throw `IllegalStateException`. `Mappers.Mapper.SetMapper`
  states the code's behaviour.

The key claims to be a "unique name" (ZebraUtils.java:13-14). That holds
when the source class names contain no '_', because the first '_' then splits
the key (`KeyInjective`). It also holds when the destination names contain
none, because the last '_' then does (`KeyInjectiveByDestination`). Java class
and package names may contain '_'. `KeyCollision` and
`MisroutedByKeyCollision` show the classes "x" and "x_x" sharing a key in
both orders. As a result, mapping an "x_x" object to "x" selects the
("x", "x_x") converter and calls its forward transform instead of the
backward one.

## Model

| member | source | states |
|---|---|---|
| ZebraUtils.MapperKey | src/main/java/com/agileasoft/zebra/util/ZebraUtils.java:22-28 | the key has length \|A\|+1+\|B\|, starts with A's full name, then '_', then ends with B's full name |
| ZebraUtils.KeyInjective | src/main/java/com/agileasoft/zebra/util/ZebraUtils.java:13-14 | when both source names are '_'-free, equal keys mean equal source names and equal destination names |
| ZebraUtils.KeyInjectiveByDestination | src/main/java/com/agileasoft/zebra/util/ZebraUtils.java:13-14 | when both destination names are '_'-free, equal keys likewise mean equal source names and equal destination names |
| ZebraUtils.KeyDirected | src/main/java/com/agileasoft/zebra/util/ZebraUtils.java:13-14 | for distinct '_'-free names, key(A,B) differs from key(B,A) |
| ZebraUtils.KeyCollision | src/main/java/com/agileasoft/zebra/util/ZebraUtils.java:13-14 | without that condition uniqueness fails: ("x","x_x") and ("x_x","x") give the same key |
| Mappers.Mapper.constructor | src/main/java/com/agileasoft/zebra/Mapper.java:8-12 | a converter has a declared pair and a forward transform, and it starts unbound |
| Mappers.Mapper.MapBToA | src/main/java/com/agileasoft/zebra/Mapper.java:14-17 | without an override, the backward transform always fails with UnsupportedOperation "method not implemented."; with one, it is the override |
| Mappers.Mapper.SetMapper | src/main/java/com/agileasoft/zebra/Mapper.java:19-21 | only the back-reference changes, and it becomes the given resolver even when already bound |
| Resolution.Dispatch | src/main/java/com/agileasoft/zebra/MapperFactory.java:42-62 | null source gives null before any lookup, even on an empty store; a null destination gives NullPointer; a forward converter wins even when a backward one exists; otherwise the backward converter's transform is used; otherwise UnsupportedOperation naming both keys |
| Resolution.MapEachMeaning | src/main/java/com/agileasoft/zebra/MapperFactory.java:65-75 | succeeds iff every element maps; then the result has the same length and element i is the image of element i; a failure is the exception of the first element that fails |
| Resolution.MapEach | src/main/java/com/agileasoft/zebra/MapperProcessor.java:57-61 | the element-wise loop of both classes: on success the result has exactly one image per source element, never a partial list (`MapEachMeaning` gives the rest) |
| Resolution.ListMapping | src/main/java/com/agileasoft/zebra/MapperFactory.java:65-75 | a null list gives null, and only a null list does |
| Resolution.MapEachAbortsAtFailure | src/main/java/com/agileasoft/zebra/MapperFactory.java:71-73 | once a prefix fails, the whole list fails with that same exception |
| Resolution.MapEachStep | src/main/java/com/agileasoft/zebra/MapperProcessor.java:58-60 | after a successful prefix, the next element's failure is the whole list's failure, and its success appends its image |
| Resolution.LookupMatchesDeclaredPair | src/main/java/com/agileasoft/zebra/MapperProcessor.java:39-42 | in a store where each converter sits under its own key and source names are '_'-free, the converter found under key(A,B) is declared for A to B |
| Resolution.NoMapperMessageOnEmptyStore | src/test/java/com/agileasoft/zebra/MapperFactoryTest.java:41-54 | an empty store reports the test's message, with fully qualified names, '$' for nested classes, and '_' between them |
| Factory.Insert | src/main/java/com/agileasoft/zebra/MapperFactory.java:19-32 | null gives NullPointer; a taken pair gives UnsupportedOperation "A Mapper<A, B> is already registered." and leaves the store unchanged; success adds exactly the new key for the converter, keeps every other entry, and keeps every converter under its own key |
| Factory.InsertAll | src/main/java/com/agileasoft/zebra/MapperFactory.java:34-39 | registering in order never loses or changes an existing entry, even after a failure; keeps converters under their own keys; every new entry comes from the list |
| Factory.InsertAllFailsAtRefusal | src/main/java/com/agileasoft/zebra/MapperFactory.java:34-39 | registerAll fails exactly when it stops at some element j: every element before j was registered, element j was refused, the call reports element j's own exception, and the store is the one the elements before j produced |
| Factory.InsertAllSucceedsIff | src/main/java/com/agileasoft/zebra/MapperFactory.java:34-39 | registerAll succeeds iff no element is null, none takes a pair already present, and no two share a pair; then the store gains exactly the list's keys |
| Factory.ForwardAfterRegister | src/main/java/com/agileasoft/zebra/MapperFactory.java:52-58 | after registering a converter for (A, B), mapping an A object to B returns exactly that converter's `mapAToB` (abstract at Mapper.java:12, so the converter's own forward transform) |
| Factory.BackwardAfterRegister | src/main/java/com/agileasoft/zebra/MapperFactory.java:59-61 | after registering (A, B), with nothing for (B, A) and '_'-free names, mapping a B object to A runs the backward transform; for a one-way converter this is UnsupportedOperation "method not implemented." |
| Factory.RoundTripAfterRegister | src/test/java/com/agileasoft/zebra/MapperFactoryTest.java:261-275 | for a converter whose backward transform undoes its forward one, mapping A to B and back returns the original |
| Factory.MisroutedByKeyCollision | src/main/java/com/agileasoft/zebra/MapperFactory.java:52-58 | with a ("x","x_x") converter registered, mapping an "x_x" object to "x" selects that converter and calls its forward transform instead of the backward one |
| Factory.MapperFactory.constructor | src/main/java/com/agileasoft/zebra/MapperFactory.java:17 | a new factory has an empty registry |
| Factory.MapperFactory.Register | src/main/java/com/agileasoft/zebra/MapperFactory.java:19-32 | result and new store are as Insert says; on success the converter is bound to this factory; on failure the converter is untouched, because binding happens only after the duplicate check |
| Factory.MapperFactory.RegisterAll | src/main/java/com/agileasoft/zebra/MapperFactory.java:34-39 | result and new store are as InsertAll says; every newly registered converter is bound to this factory; every listed converter that was not stored, the refused one and the later ones included, is left untouched |
| Factory.MapperFactory.Map | src/main/java/com/agileasoft/zebra/MapperFactory.java:41-63 | dispatch over the factory's registry; a null source gives null |
| Factory.MapperFactory.MapList | src/main/java/com/agileasoft/zebra/MapperFactory.java:65-75 | a null list gives null; otherwise the result equals element-wise mapping, with no partial result on failure |
| Processor.Collect | src/main/java/com/agileasoft/zebra/MapperProcessor.java:81-83 | a list-like container keeps exactly the added values in order; a set-like one has the same members without repeats |
| Processor.Add | src/main/java/com/agileasoft/zebra/MapperProcessor.java:82 | after add the container holds exactly the old members and the new value; a list appends it; a set without repeats stays without repeats |
| Processor.CollectionMapping | src/main/java/com/agileasoft/zebra/MapperProcessor.java:70-80 | a null source gives null, and only a null source does; a container class that cannot be built gives IllegalState with its message before any element is mapped |
| Processor.CollectionMatchesList | src/main/java/com/agileasoft/zebra/MapperProcessor.java:70-85 | collection mapping fails exactly when list mapping fails, with the same exception; into a list it equals list mapping; into a set it has the same members, without repeats |
| Processor.MapperProcessor.constructor | src/main/java/com/agileasoft/zebra/MapperProcessor.java:18-27 | the store, a field never reassigned, has exactly the input's keys and converters, and every input converter is bound to the new processor |
| Processor.MapperProcessor.Create | src/main/java/com/agileasoft/zebra/MapperProcessor.java:20-21 | a null store fails with NullPointer "Mappers store must be not null."; otherwise a fresh processor over a copy of it |
| Processor.MapperProcessor.Map | src/main/java/com/agileasoft/zebra/MapperProcessor.java:29-50 | dispatch over the fixed store; a null source gives null |
| Processor.MapperProcessor.MapList | src/main/java/com/agileasoft/zebra/MapperProcessor.java:52-62 | a null list gives null; otherwise the result equals element-wise mapping, in order, with no partial result on failure |
| Processor.MapperProcessor.MapCollection | src/main/java/com/agileasoft/zebra/MapperProcessor.java:70-85 | a null source gives null; a container class that cannot be built gives IllegalState with its message; otherwise the mapped elements are added in order to a fresh container |

## Left out

- The (A, B) pair of a converter is not discovered by generic-superclass reflection. It is the explicit `source`/`destination` of `Mappers.Mapper`.
- Container creation by `getConstructor(int.class).newInstance(size)` is not modelled. A container class is either `Instantiable(kind)`, with list or set `add` behaviour, or `NotInstantiable(message)`.
- A null `collectionImpl` (the NullPointerException is caught, so it becomes an IllegalStateException with a null message) is only covered through `NotInstantiable`, with a message string.
- The exception cause passed into that IllegalStateException is not modelled.
- Processor.MapperProcessor.MapCollection: value equality stands for `equals()`, and converters are functions, so equal sources give equal results. A set-like container therefore merges results that Java keeps apart when a converter allocates a new object on every call and that object's class keeps identity `equals()`.
- Java's ClassCastException is not modelled. The bridge method of a concrete converter throws it when an argument is not of the declared class. That happens after a key collision, and with a processor store whose keys do not match its converters' pairs. The model's transforms accept values of any class.
- Processor.Collect: the iteration order of a set-like container (a `HashSet`) is unspecified. The contract covers membership and absence of repeats only.
- Converter bodies are opaque total functions that may fail. Reentrant calls, where a converter calls back into its bound resolver (the test's `DeepMappingMapper`), are not modelled.
- The back-reference has type `object?`. `IMapper` is not part of this model. As written, `MapperProcessor` (MapperProcessor.java:17) does not implement `IMapper`, yet passes `this` to `setMapper(IMapper)` at MapperProcessor.java:24. That source would not compile, and the `object?` type hides this.
- `register` returns the factory for chaining. Here it returns an `Outcome`, because the factory is always the receiver.
- A null list passed to `registerAll` throws a bare NullPointerException. The model's list type cannot be null.
- A processor store containing null converters would throw at MapperProcessor.java:24, after binding the converters iterated before it in hash order. Store values here are never null.
- API that the tests use but the code does not have is not modelled: `build()` and sealing, `straightMap`/`reverseMap`, chained `registerAll`, and the `Map<String, List<Mapper>>` multi-converter store.
- Concurrency: the code has none.
