# OrigoDB core pieces, modelled in Dafny

OrigoDB is an in-memory object database: the model is a live object graph,
changed only by serializable commands and read by queries, some of them
ad-hoc query text compiled at run time. This project models five small,
self-contained pieces of it:

- **The caching query compiler** (`CachingLinqCompiler`) as its unit tests
  pin it down, with the two LINQ queries those tests run against the test
  model (`query_cache.dfy`, `linq_queries.dfy`). Compiled code is cached by
  query text. `CompilerInvocations` counts calls of the compiler.
  `ForceCompilation` bypasses the cache. The compiler itself is a function
  value handed to the object. `GeneratedCode` is what it produces for the
  tests' two queries.
- **The command lifecycle** (`Command.Redo`, `Command.Abort`): a read-only
  prepare phase, then an execute phase that mutates the model in place;
  exceptions become the `Aborted`/`Faulted` cases of an outcome datatype
  (`commands.dfy`).
- **The replication messages** (`NetworkMessage`, `RedirectMessage`,
  `Heartbeat`, `TransitioningMessage`, `SnapshotRequest`, `SnapshotResponse`)
  as one tagged datatype whose property setters are record updates
  (`network_messages.dfy`).
- **Byte-array equality** (`ByteArrayExtensions.EqualsEx`) as a function on
  sequences and a loop over arrays (`byte_arrays.dfy`).
- `clr_types.dfy` holds the shared .NET value types: null as `Option`,
  exceptions as `Result`, `int32`, `byte`.

The query cache is keyed by query text alone. The test at
`src/OrigoDB.Core.UnitTests/CachingLinqCompilerTest.cs:162-186` runs the
prefix query with a string argument and then, on the same engine, with a
boxed int, and expects a `TargetInvocationException`: the code generated
for the string is run again and its cast of `args[0]` fails. That only
happens if the second call reuses the cached entry although the argument
types differ. The `CachingLinqCompiler` implementation is not modelled;
its behaviour is inferred from its tests. Four points the tests leave
open are fixed here by assumption (listed again under "Left out"):

- a null argument fails while the argument types are taken, before the
  compiler is called, so the counter does not move;
- the counter goes up once per call of the compiler, also when that
  compilation fails;
- a forced compilation replaces the entry cached for the text;
- a hit does not inspect the arguments at all, so a null argument on a
  hit does not fail there.

The test above requires only that a hit ignores the argument types.

String order and `StartsWith` are ordinal (character codes), not .NET's
culture-sensitive comparison.

## Model

| member | source | states |
|---|---|---|
| `LinqQueries.LessEqIsReflexive` | src/OrigoDB.Core.UnitTests/CachingLinqCompilerTest.cs:19 | the ordinal order used by `orderby` is reflexive |
| `LinqQueries.LessEqIsAntisymmetric` | src/OrigoDB.Core.UnitTests/CachingLinqCompilerTest.cs:19 | two names each below the other are the same name |
| `LinqQueries.LessEqIsTransitive` | src/OrigoDB.Core.UnitTests/CachingLinqCompilerTest.cs:19 | the ordinal order is transitive |
| `LinqQueries.LessEqIsTotal` | src/OrigoDB.Core.UnitTests/CachingLinqCompilerTest.cs:19 | any two names are comparable |
| `LinqQueries.Where` | src/OrigoDB.Core.UnitTests/CachingLinqCompilerTest.cs:19 | `where`: a customer is kept exactly when it is one of the input's and its name starts with the prefix |
| `LinqQueries.WhereKeepsMultiplicity` | src/OrigoDB.Core.UnitTests/CachingLinqCompilerTest.cs:19 | `where` keeps each matching customer exactly as many times as it occurs in the input, and no other customer |
| `LinqQueries.WhereDistributes` | src/OrigoDB.Core.UnitTests/CachingLinqCompilerTest.cs:19 | `where` on a concatenation is the concatenation of the filtered parts, so the kept customers stay in their original order |
| `LinqQueries.InsertByName` | src/OrigoDB.Core.UnitTests/CachingLinqCompilerTest.cs:19 | inserting into a name-sorted sequence keeps it sorted and adds exactly that customer |
| `LinqQueries.OrderByName` | src/OrigoDB.Core.UnitTests/CachingLinqCompilerTest.cs:19 | `orderby customer.Name`: sorted by name and a permutation of its input |
| `LinqQueries.Names` | src/OrigoDB.Core.UnitTests/CachingLinqCompilerTest.cs:19 | `select customer.Name`: same length, the i-th result is the i-th customer's name |
| `LinqQueries.First` | src/OrigoDB.Core.UnitTests/CachingLinqCompilerTest.cs:19 | `First()` yields the head, and fails exactly on an empty sequence |
| `LinqQueries.QueryExpr` | src/OrigoDB.Core.UnitTests/CachingLinqCompilerTest.cs:17-20 | the prefix query's answer is the name of one of the model's customers and starts with the prefix; it fails only with "no elements" |
| `LinqQueries.ListOfCustomerNames` | src/OrigoDB.Core.UnitTests/CachingLinqCompilerTest.cs:207-209 | the list query has one name per customer, the i-th customer's name at position i |
| `LinqQueries.QueryExprFindsLeastMatch` | src/OrigoDB.Core.UnitTests/CachingLinqCompilerTest.cs:17-20 | the prefix query succeeds iff some name starts with the prefix; then it returns a customer's name that starts with the prefix and is ordinally no greater than any other matching name; otherwise it fails with "no elements" |
| `LinqQueries.ListOfCustomerNamesKeepsInsertionOrder` | src/OrigoDB.Core.UnitTests/CachingLinqCompilerTest.cs:207-209 | adding a customer appends its name to the list query's result |
| `LinqQueries.ZippyThenDroozy` | src/OrigoDB.Core.UnitTests/CachingLinqCompilerTest.cs:101-112 | adding "Zippy" then "Droozy" lists `["Zippy", "Droozy"]` |
| `LinqQueries.PrefixQueryOnHomerAndRobert` | src/OrigoDB.Core.UnitTests/CachingLinqCompilerTest.cs:134-151 | on "Homer Simpson" and "Robert Friberg", prefix "Ho" gives Homer and "Ro" gives Robert |
| `QueryCache.ArgTypes` | src/OrigoDB.Core.UnitTests/CachingLinqCompilerTest.cs:153-160 | the argument types exist exactly when no argument is null, one per argument, each the argument's runtime type |
| `QueryCache.Resolve` | src/OrigoDB.Core.UnitTests/CachingLinqCompilerTest.cs:61-98 | a hit (not forced) changes nothing and returns the cached entry; the counter rises by exactly one when the cache cannot answer and no argument is null, else stays; a null argument on a miss fails with nothing changed; on a miss with non-null arguments the result is the compiler's: its code, generated for the arguments' types and now cached under the text, or its error message as a compilation error with the cache unchanged; no entry is evicted or changed for other texts |
| `QueryCache.CachingLinqCompiler.constructor` | src/OrigoDB.Core.UnitTests/CachingLinqCompilerTest.cs:64-67 | a new compiler has an empty cache, 0 invocations and forced compilation off |
| `QueryCache.CachingLinqCompiler.SetForceCompilation` | src/OrigoDB.Core.UnitTests/CachingLinqCompilerTest.cs:89-90 | assigns `ForceCompilation` and changes nothing else |
| `QueryCache.CachingLinqCompiler.GetCompiledQuery` | src/OrigoDB.Core.UnitTests/CachingLinqCompilerTest.cs:61-98 | the object's new cache, counter and flag, and the returned entry, are exactly those of `Resolve` on its old state |
| `QueryCache.CounterScenario` | src/OrigoDB.Core.UnitTests/CachingLinqCompilerTest.cs:61-98 | driven through one compiler object, the counter reads 0, 1, 1 (the repeat returns the same entry), then 2 and 3 once compilation is forced |
| `QueryCache.CastArgs` | src/OrigoDB.Core.UnitTests/CachingLinqCompilerTest.cs:22-25 | the generated code's argument casts all succeed iff there are enough arguments and each casts to its declared parameter type; otherwise the fault is the first failing cast's, or index out of range when `args` runs out first |
| `QueryCache.Invoke` | src/OrigoDB.Core.UnitTests/CachingLinqCompilerTest.cs:22-25 | running compiled code only fails with an invocation failure; a failing argument cast is reported as that failure; once the casts succeed the result is the body's, with a thrown fault wrapped |
| `QueryCache.ExecuteQueryText` | src/OrigoDB.Core.UnitTests/CachingLinqCompilerTest.cs:146-148 | executing text leaves the compiler as resolving it does; a resolution failure is the execution's result, and a resolved entry is invoked with the arguments |
| `QueryCache.PrefixQueryBody` | src/OrigoDB.Core.UnitTests/CachingLinqCompilerTest.cs:17-25 | the generated prefix query returns a customer's name starting with the string `@arg0`; a null `@arg0` throws from `StartsWith` unless there are no customers, where `First` finds no elements; any other object fails the cast; no arguments is an index fault |
| `QueryCache.ListQueryBody` | src/OrigoDB.Core.UnitTests/CachingLinqCompilerTest.cs:207-209 | the generated list query returns one name per customer, in insertion order, whatever the arguments |
| `QueryCache.GeneratedCode` | src/OrigoDB.Core.UnitTests/CachingLinqCompilerTest.cs:201-209 | of the two test queries the prefix query compiles exactly when `@arg0` is a string and the list query always, each to its own generated code; any other text is rejected |
| `QueryCache.NullPrefixOnEmptyModelFindsNoElements` | src/OrigoDB.Core.UnitTests/CachingLinqCompilerTest.cs:17-25 | after a string run, a null `@arg0` on a model without customers reuses the cached code and fails with "no elements" inside the invocation |
| `QueryCache.RepeatedQueryIsCached` | src/OrigoDB.Core.UnitTests/CachingLinqCompilerTest.cs:61-72 | a fresh compiler reports 0; the first call makes it 1; the same call again stays at 1 and returns the same entry |
| `QueryCache.RepeatedQueryIsCachedWhenParametersDiffer` | src/OrigoDB.Core.UnitTests/CachingLinqCompilerTest.cs:74-84 | a second call with other argument values reuses the entry; the counter stays 1 |
| `QueryCache.RepeatedQueryIsCompiledWhenCompilationIsForced` | src/OrigoDB.Core.UnitTests/CachingLinqCompilerTest.cs:86-98 | with forced compilation every call with non-null arguments adds exactly one invocation |
| `QueryCache.CompilationFailsWhenPassedNullArgument` | src/OrigoDB.Core.UnitTests/CachingLinqCompilerTest.cs:153-160 | a null argument on a fresh compiler fails, caches nothing and calls no compiler |
| `QueryCache.ExecutionFailsForMismatchedArgumentTypeOnSecondInvocation` | src/OrigoDB.Core.UnitTests/CachingLinqCompilerTest.cs:162-186 | after the prefix query ran with a string, running it with a boxed int reuses the cached code and ends in an invocation failure (invalid cast), with one compilation in all |
| `QueryCache.ResolvePrefixQueryOnFresh` | src/OrigoDB.Core.UnitTests/CachingLinqCompilerTest.cs:14-20 | a fresh compiler compiles the prefix query once, for a string `@arg0`, and caches it under its text |
| `QueryCache.InvokePrefixQuery` | src/OrigoDB.Core.UnitTests/CachingLinqCompilerTest.cs:17-25 | the compiled prefix query called with a string returns what `QueryExpr` returns for it |
| `QueryCache.CanExecuteQueryWithNewDifferentParameters` | src/OrigoDB.Core.UnitTests/CachingLinqCompilerTest.cs:133-151 | through one cache, "Ho" gives "Homer Simpson", then "Ro" gives "Robert Friberg", with one compilation |
| `QueryCache.CanExecuteListQuery` | src/OrigoDB.Core.UnitTests/CachingLinqCompilerTest.cs:100-112 | the list query through the cache returns `["Zippy", "Droozy"]` |
| `Commands.Abort` | src/OrigoDB.Core/Operations/Command.cs:16-19 | never returns a value: always an aborted outcome carrying exactly the given message and inner exception (defaults "" and none) |
| `Commands.Discard` | src/OrigoDB.Core/Operations/Command.cs:28-32 | `Redo` drops the execute phase's return value; an abort stays an abort with the same message and inner exception, a fault stays a fault with the same exception |
| `Commands.Redone` | src/OrigoDB.Core/Operations/Command.cs:21-32 | prepare always runs first; execute runs after it exactly when prepare returns; without execute the model is unchanged and prepare's outcome propagates; the command ends normally exactly when both phases do; when execute runs its model remains and its abort or exception reaches the caller unchanged |
| `Commands.Redo` | src/OrigoDB.Core/Operations/Command.cs:28-32 | the phases called, the model object's new state and the outcome are exactly those of the `Redone` specification on the old state |
| `Commands.RedoRunsPrepareThenExecute` | src/OrigoDB.Core/Operations/Command.cs:21-32 | when prepare returns, exactly prepare then execute run, once each; execute sees the model prepare saw, unchanged; its mutation is what remains |
| `Commands.RedoStopsWhenPrepareFails` | src/OrigoDB.Core/Operations/Command.cs:28-31 | when prepare aborts or throws, execute never runs, the model is unchanged and that outcome propagates |
| `Commands.RedoReportsAbort` | src/OrigoDB.Core/Operations/Command.cs:16-19 | an abort in the execute phase reaches `Redo`'s caller with its message and inner exception; a change made before it stays |
| `Commands.RedoDiscardsResult` | src/OrigoDB.Core/Operations/Command.cs:28-32 | two commands differing only in their execute phase's return value redo identically |
| `NetworkMessages.NetworkMessage.WithRequiresAcknowledgement` | src/LiveDomain.Core/Clients/Remote/Messages/NetworkMessage.cs:9 | sets the flag, changes no other property and keeps `Succeeded` |
| `NetworkMessages.NetworkMessage.WithPayload` | src/LiveDomain.Core/Clients/Remote/Messages/NetworkMessage.cs:10 | sets `Payload`, changes no other property and keeps `Succeeded` |
| `NetworkMessages.NetworkMessage.WithError` | src/LiveDomain.Core/Clients/Remote/Messages/NetworkMessage.cs:11-18 | sets `Error`; afterwards `Succeeded` holds exactly when the error is null, whatever the kind or payload |
| `NetworkMessages.NetworkMessage.WithHost` | src/LiveDomain.Core/Clients/Remote/Messages/NetworkMessage.cs:24 | sets a redirect's host, keeps its port, the other properties and `Succeeded` |
| `NetworkMessages.NetworkMessage.WithPort` | src/LiveDomain.Core/Clients/Remote/Messages/NetworkMessage.cs:25 | sets a redirect's port, keeps its host, the other properties and `Succeeded` |
| `NetworkMessages.NetworkMessage.WaitTime` | src/LiveDomain.Core/Clients/Remote/Messages/NetworkMessage.cs:43-46 | succeeds exactly when `Payload` holds a boxed int, and then gives that int; a null payload is a null-reference failure, any other object an invalid cast |
| `NetworkMessages.NetworkMessage.Snapshot` | src/OrigoDB.Core/Clients/Remote/Messages/SnapshotRequest.cs:13 | succeeds exactly when `Payload` is null or a byte array; null gives null, an array gives exactly its bytes, any other object is an invalid cast |
| `NetworkMessages.NewMessage` | src/LiveDomain.Core/Clients/Remote/Messages/NetworkMessage.cs:7-33 | a message built by a parameterless constructor (every kind but `TransitioningMessage`, which has none) has no payload, does not require acknowledgement and has `Succeeded` |
| `NetworkMessages.NewTransitioning` | src/LiveDomain.Core/Clients/Remote/Messages/NetworkMessage.cs:38-41 | the constructed message has `Succeeded`, no acknowledgement flag, and `WaitTime` gives back the wait time |
| `NetworkMessages.SucceededIffNoError` | src/LiveDomain.Core/Clients/Remote/Messages/NetworkMessage.cs:12-18 | every kind, the snapshot request and response included, has `Succeeded` exactly when `Error` is null; a non-null error makes it false |
| `NetworkMessages.WaitTimeRoundTrip` | src/LiveDomain.Core/Clients/Remote/Messages/NetworkMessage.cs:38-46 | `new TransitioningMessage(w).WaitTime == w`; replacing the payload with a non-int makes `WaitTime` fail |
| `NetworkMessages.SnapshotRoundTrip` | src/OrigoDB.Core/Clients/Remote/Messages/SnapshotRequest.cs:11-14 | a response whose payload is set to some bytes gives back those bytes; a null payload gives null |
| `ByteArrays.AllEqualFromMeansSameSuffix` | src/OrigoDB.Core/Utilities/ByteArrayExtensions.cs:14 | the index-range `All` from `i` holds exactly when both suffixes from `i` are equal |
| `ByteArrays.BytesEqual` | src/OrigoDB.Core/Utilities/ByteArrayExtensions.cs:13-14 | the length check plus element-wise `All` holds exactly when the two byte sequences are equal |
| `ByteArrays.EqualsEx` | src/OrigoDB.Core/Utilities/ByteArrayExtensions.cs:11-15 | on two non-null arrays, modifying neither: true iff the lengths match and every index holds the same byte |
| `ByteArrays.EqualsExIsReflexive` | src/OrigoDB.Core/Utilities/ByteArrayExtensions.cs:13-14 | every array equals itself |
| `ByteArrays.EqualsExIsSymmetric` | src/OrigoDB.Core/Utilities/ByteArrayExtensions.cs:13-14 | the comparison does not depend on argument order |
| `ByteArrays.DifferentLengthsAreNeverEqual` | src/OrigoDB.Core/Utilities/ByteArrayExtensions.cs:13 | arrays of different lengths are never equal |
| `ByteArrays.EmptyArraysAreEqual` | src/OrigoDB.Core/Utilities/ByteArrayExtensions.cs:13-14 | two empty arrays are equal |

## Left out

- Generating and compiling C# source from query text: the compiler is a
  function parameter of `CachingLinqCompiler`. What compiled code does is
  modelled only for the tests' two queries (`GeneratedCode`). The injected
  "evil code" test (CachingLinqCompilerTest.cs:114-131) is not modelled.
- Thread-safety of the query cache and the race between two misses on the
  same text: the model is sequential.
- `Engine.Create`, `Engine.Execute`, `Close` and the test configuration:
  locking, journaling and isolation are not part of this model.
  `ExecuteQueryText` only composes cache resolution with invocation.
- `TestModel` is not modelled here as a class. It is represented as a sequence of customers that `AddCustomer` appends to. A null
  customer name is not modelled.
- `CanCompileAllQueries` (CachingLinqCompilerTest.cs:38-59): its loop and
  trace logging are test harness, not behaviour.
- .NET culture-sensitive comparison in `StartsWith` and `orderby`: the model
  uses ordinal order on Dafny characters (Unicode scalar values rather than
  UTF-16 code units).
- Exact exception types: `NullReferenceException`,
  `InvalidCastException`, `TargetInvocationException` and
  `CommandAbortedException` are distinct datatype cases, not exceptions.
- QueryCache.Resolve: four behaviours are assumptions, not taken from the
  tests, which only expect a `NullReferenceException` for a null argument
  on a fresh compiler (CachingLinqCompilerTest.cs:153-160) and a reused
  entry for other argument types (:162-186): the counter does not move on
  a null argument, it does move on a failed compilation, a forced
  compilation replaces the cached entry, and a null argument on a hit is
  not inspected.
- QueryCache.CachingLinqCompiler.GetCompiledQuery: `CompilerInvocations` is
  an unbounded `nat`, so the wrap-around of the C# `int` counter after 2^31
  compilations is not modelled.
- NetworkMessages.NetworkMessage.Snapshot: returns the bytes as a value, so
  the aliasing of the returned `byte[]` with the one stored in `Payload` is
  not captured.
- Commands.Redo: the `ref` parameter is a Dafny object reference, which
  cannot be rebound at all. The read-only prepare phase is enforced by its
  type (a function of the model state), not by a proof.
- `[Serializable]` and the binary serialization of messages and commands.
- The parallel evaluation (`AsParallel`) in `EqualsEx`: it does not change
  the result, so the check runs from left to right.
- `Compress`, `Decompress` and the process-wide `CompressionAlgorithm`
  (ByteArrayExtensions.cs:9, 18-26): calls into a codec outside this model.
- The Redis `Expire` extension (Models/Redis/Extensions.cs): it reads the
  wall clock and calls a `RedisModel` that is not part of this model.
- `NoProxyAttribute`: a marker attribute with no logic of its own.
