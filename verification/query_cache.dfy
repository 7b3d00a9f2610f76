/**
 * The caching query compiler `CachingLinqCompiler` as its tests pin it down:
 * compiled queries are cached by their text, a counter records every call
 * of the compiler, and `ForceCompilation` bypasses the cache. The compiler
 * itself (generating and compiling C# source) is a function value handed to
 * the cache; `GeneratedCode` is the one the tests' two queries compile to.
 */
module QueryCache {
  import opened ClrTypes
  import opened LinqQueries

  /** A query argument or result, with its runtime type. */
  datatype Value =
    | NullRef
    | Str(s: string)
    | Int(i: int32)
    | StrList(items: seq<string>)

  datatype ValueType = StringType | IntType | StringListType

  /** `v.GetType()`; none for a null reference. */
  function TypeOf(v: Value): Option<ValueType> {
    match v
    case NullRef => None
    case Str(_) => Some(StringType)
    case Int(_) => Some(IntType)
    case StrList(_) => Some(StringListType)
  }

  /** The exceptions a compiled query throws from inside its own code. */
  datatype InnerFault =
    | InvalidCast
    | NullReference
    | ArgumentNull
    | IndexOutOfRange
    | Query(fault: QueryFault)

  /** The ways resolving or executing a query text fails. */
  datatype Fault =
    /** `GetType()` called on a null argument while generating code. */
    | NullArgument
    /** The compiler rejected the generated source. */
    | CompilationError(message: string)
    /** A `TargetInvocationException` wrapping what the compiled code threw. */
    | InvocationFailure(inner: InnerFault)

  /** What the generated `Execute` does once its arguments are cast. */
  type QueryBody = (TestModel, seq<Value>) -> Result<Value, InnerFault>

  /** The compiler collaborator: query text and argument types to compiled code, or an error message. */
  type Compiler = (string, seq<ValueType>) -> Result<QueryBody, string>

  /** A cached entry: the argument types the code was generated for, and the code. */
  datatype CompiledQuery = CompiledQuery(paramTypes: seq<ValueType>, body: QueryBody)

  // ---------------------------------------------------------------------
  // Resolving a query text

  /** `GetType()` on every argument in turn; none when one of them is null. */
  function ArgTypes(args: seq<Value>): (r: Option<seq<ValueType>>)
    ensures r.Some? <==> forall i :: 0 <= i < |args| ==> args[i] != NullRef
    ensures r.Some? ==> |r.value| == |args| && forall i :: 0 <= i < |args| ==> TypeOf(args[i]) == Some(r.value[i])
  {
    if args == [] then Some([])
    else
      var t, ts := TypeOf(args[0]), ArgTypes(args[1..]);
      if t.Some? && ts.Some? then Some([t.value] + ts.value) else None
  }

  lemma ArgTypesOfOne(v: Value)
    requires v != NullRef
    ensures ArgTypes([v]) == Some([TypeOf(v).value])
  {
    assert [v][1..] == [];
    assert ArgTypes([]) == Some([]);
    assert [TypeOf(v).value] + [] == [TypeOf(v).value];
  }

  /** The observable state of a `CachingLinqCompiler`. */
  datatype CacheState = CacheState(
    cache: map<string, CompiledQuery>,
    compilerInvocations: nat,
    forceCompilation: bool)

  /** A state just constructed: nothing cached, nothing compiled, caching on. */
  const Fresh := CacheState(map[], 0, false)

  datatype Resolution = Resolution(state: CacheState, result: Result<CompiledQuery, Fault>)

  /**
   * `GetCompiledQuery(text, args)` on a state: reuse the entry cached for
   * `text` unless compilation is forced; otherwise take the argument types
   * (failing on a null argument), call the compiler once, and cache what it
   * produces under `text`.
   */
  function Resolve(st: CacheState, compile: Compiler, text: string, args: seq<Value>): (r: Resolution)
    // a cache hit changes nothing and returns the cached entry
    ensures !st.forceCompilation && text in st.cache ==> r == Resolution(st, Success(st.cache[text]))
    // the compiler runs at most once per call, exactly when the cache cannot answer and no argument is null
    ensures r.state.compilerInvocations == st.compilerInvocations + (
              if (st.forceCompilation || text !in st.cache) && ArgTypes(args).Some? then 1 else 0)
    // a null argument on a miss fails before anything changes
    ensures (st.forceCompilation || text !in st.cache) && ArgTypes(args).None? ==>
              r == Resolution(st, Failure(NullArgument))
    // a compiled query is what the cache now holds for the text
    ensures r.result.Success? ==> text in r.state.cache && r.state.cache[text] == r.result.value
    // fresh code is generated for the arguments' runtime types
    ensures r.result.Success? && (st.forceCompilation || text !in st.cache) ==>
              Some(r.result.value.paramTypes) == ArgTypes(args)
    // entries for other texts stay as they were, and nothing is ever evicted
    ensures r.state.cache.Keys == st.cache.Keys || r.state.cache.Keys == st.cache.Keys + {text}
    ensures forall k :: k in st.cache && k != text ==> r.state.cache[k] == st.cache[k]
    ensures r.state.forceCompilation == st.forceCompilation
    // on a miss with non-null arguments the result is the compiler's: its code cached, or its error with the cache untouched
    ensures (st.forceCompilation || text !in st.cache) && ArgTypes(args).Some? ==>
              match compile(text, ArgTypes(args).value)
              case Success(b) => r.result == Success(CompiledQuery(ArgTypes(args).value, b))
              case Failure(m) => r.result == Failure(CompilationError(m)) && r.state.cache == st.cache
  {
    if !st.forceCompilation && text in st.cache then
      Resolution(st, Success(st.cache[text]))
    else
      match ArgTypes(args)
      case None => Resolution(st, Failure(NullArgument))
      case Some(types) =>
        var compiled := st.(compilerInvocations := st.compilerInvocations + 1);
        match compile(text, types)
        case Failure(message) => Resolution(compiled, Failure(CompilationError(message)))
        case Success(body) =>
          var q := CompiledQuery(types, body);
          Resolution(compiled.(cache := compiled.cache[text := q]), Success(q))
  }

  // ---------------------------------------------------------------------
  // The compiler object

  class CachingLinqCompiler {
    const compile: Compiler
    var cache: map<string, CompiledQuery>
    var compilerInvocations: nat
    var forceCompilation: bool

    function State(): CacheState
      reads this
    {
      CacheState(cache, compilerInvocations, forceCompilation)
    }

    /** `new CachingLinqCompiler(typeof(TestModel))`, with the compiler it will call. */
    constructor (compile: Compiler)
      ensures this.compile == compile && State() == Fresh
    {
      this.compile := compile;
      cache := map[];
      compilerInvocations := 0;
      forceCompilation := false;
    }

    /** The `ForceCompilation` setter. */
    method SetForceCompilation(force: bool)
      modifies this
      ensures State() == old(State()).(forceCompilation := force)
    {
      forceCompilation := force;
    }

    method GetCompiledQuery(text: string, args: seq<Value>) returns (r: Result<CompiledQuery, Fault>)
      modifies this
      ensures Resolution(State(), r) == Resolve(old(State()), compile, text, args)
    {
      if !forceCompilation && text in cache {
        return Success(cache[text]);
      }
      var types := ArgTypes(args);
      if types.None? {
        return Failure(NullArgument);
      }
      compilerInvocations := compilerInvocations + 1;
      var compiled := compile(text, types.value);
      if compiled.Failure? {
        return Failure(CompilationError(compiled.error));
      }
      var q := CompiledQuery(types.value, compiled.value);
      cache := cache[text := q];
      r := Success(q);
    }
  }

  /**
   * The counter tests, driven through the object: 0 before any call, 1
   * after the first, still 1 after a repeat, and +1 per call once
   * compilation is forced.
   */
  method CounterScenario(compile: Compiler, text: string, args: seq<Value>) returns (counts: seq<nat>, ghost reused: bool)
    requires ArgTypes(args).Some? && compile(text, ArgTypes(args).value).Success?
    ensures counts == [0, 1, 1, 2, 3]
    ensures reused
  {
    var target := new CachingLinqCompiler(compile);
    counts := [target.compilerInvocations];
    var first := target.GetCompiledQuery(text, args);
    counts := counts + [target.compilerInvocations];
    var again := target.GetCompiledQuery(text, args);
    counts := counts + [target.compilerInvocations];
    reused := again == first;
    target.SetForceCompilation(true);
    var forced := target.GetCompiledQuery(text, args);
    counts := counts + [target.compilerInvocations];
    forced := target.GetCompiledQuery(text, args);
    counts := counts + [target.compilerInvocations];
  }

  // ---------------------------------------------------------------------
  // Executing compiled code

  /** Whether the cast `(T)v` to a parameter of type `t` succeeds: reference types admit null. */
  function CastArg(v: Value, t: ValueType): Option<InnerFault> {
    match t
    case IntType => if v.Int? then None else if v.NullRef? then Some(NullReference) else Some(InvalidCast)
    case StringType => if v.Str? || v.NullRef? then None else Some(InvalidCast)
    case StringListType => if v.StrList? || v.NullRef? then None else Some(InvalidCast)
  }

  /** `(T0)args[0], (T1)args[1], ...` from left to right: the first failing cast. */
  function CastArgs(types: seq<ValueType>, args: seq<Value>): (r: Option<InnerFault>)
    ensures r.None? <==> |types| <= |args| && forall i :: 0 <= i < |types| ==> CastArg(args[i], types[i]).None?
    // the fault is that of the first cast that fails ...
    ensures forall k | 0 <= k < |types| && k < |args| && CastArg(args[k], types[k]).Some? ::
              (forall i :: 0 <= i < k ==> CastArg(args[i], types[i]).None?) ==> r == CastArg(args[k], types[k])
    // ... or, when every argument there is casts, reading past the end of `args`
    ensures |args| < |types| && (forall i :: 0 <= i < |args| ==> CastArg(args[i], types[i]).None?) ==>
              r == Some(IndexOutOfRange)
  {
    if types == [] then None
    else if args == [] then Some(IndexOutOfRange)
    else if CastArg(args[0], types[0]).Some? then CastArg(args[0], types[0])
    else
      var rest := CastArgs(types[1..], args[1..]);
      assert rest.None? ==> forall i :: 0 <= i < |types| ==> CastArg(args[i], types[i]).None? by {
        if rest.None? {
          forall i | 0 <= i < |types|
            ensures CastArg(args[i], types[i]).None?
          {
            if i > 0 {
              assert CastArg(args[1..][i - 1], types[1..][i - 1]).None?;
            }
          }
        }
      }
      assert forall k :: 1 <= k < |types| && k < |args| ==>
               args[1..][k - 1] == args[k] && types[1..][k - 1] == types[k];
      rest
  }

  /**
   * Invoking a compiled query's `Execute(engine, args)` by reflection on
   * the model: it casts the arguments to the types it was generated for and
   * runs; anything thrown comes out wrapped in a TargetInvocationException.
   */
  function Invoke(q: CompiledQuery, db: TestModel, args: seq<Value>): (r: Result<Value, Fault>)
    ensures r.Failure? ==> r.error.InvocationFailure?
    ensures CastArgs(q.paramTypes, args).Some? ==> r == Failure(InvocationFailure(CastArgs(q.paramTypes, args).value))
    // once the casts succeed the result is the body's, a thrown fault wrapped
    ensures CastArgs(q.paramTypes, args).None? ==>
              match q.body(db, args)
              case Success(v) => r == Success(v)
              case Failure(e) => r == Failure(InvocationFailure(e))
  {
    match CastArgs(q.paramTypes, args)
    case Some(fault) => Failure(InvocationFailure(fault))
    case None =>
      match q.body(db, args)
      case Success(v) => Success(v)
      case Failure(inner) => Failure(InvocationFailure(inner))
  }

  datatype Execution = Execution(state: CacheState, result: Result<Value, Fault>)

  /** Executing a query text on the model: resolve it through the cache, then invoke it. */
  function ExecuteQueryText(st: CacheState, compile: Compiler, db: TestModel, text: string, args: seq<Value>): (r: Execution)
    ensures r.state == Resolve(st, compile, text, args).state
    ensures Resolve(st, compile, text, args).result.Failure? ==>
              r.result == Failure(Resolve(st, compile, text, args).result.error)
    ensures Resolve(st, compile, text, args).result.Success? ==>
              r.result == Invoke(Resolve(st, compile, text, args).result.value, db, args)
  {
    var resolved := Resolve(st, compile, text, args);
    match resolved.result
    case Failure(f) => Execution(resolved.state, Failure(f))
    case Success(q) => Execution(resolved.state, Invoke(q, db, args))
  }

  // ---------------------------------------------------------------------
  // The code generated for the tests' two queries

  const FirstCustomersNameStartingWithArg0: string :=
    "(from customer in db.Customers where customer.Name.StartsWith(@arg0) orderby customer.Name select customer.Name).First()"

  const ListOfCustomerNamesText: string :=
    "(from customer in db.Customers select customer.Name).ToList()"

  /**
   * The generated `QueryExpr` of the prefix query, applied to an already cast
   * `@arg0`. `where` is deferred: `StartsWith(null)` only throws once `First`
   * reaches a customer, so on an empty model a null prefix finds no elements.
   */
  function PrefixQueryBody(db: TestModel, args: seq<Value>): (r: Result<Value, InnerFault>)
    ensures args == [] ==> r == Failure(IndexOutOfRange)
    ensures r.Success? ==> args != [] && args[0].Str? && r.value.Str? &&
                           StartsWith(r.value.s, args[0].s) && Customer(r.value.s) in db.customers
    ensures args != [] && args[0].Str? && r.Failure? ==> r == Failure(Query(SequenceContainsNoElements))
    ensures args != [] && args[0].NullRef? ==>
              r == if db.customers == [] then Failure(Query(SequenceContainsNoElements)) else Failure(ArgumentNull)
    // any other object fails the cast to string
    ensures args != [] && (args[0].Int? || args[0].StrList?) ==> r == Failure(InvalidCast)
  {
    if args == [] then Failure(IndexOutOfRange)
    else match args[0]
      case Str(prefix) =>
        (match QueryExpr(db, prefix)
         case Success(name) => Success(Str(name))
         case Failure(f) => Failure(Query(f)))
      case NullRef =>
        // the first customer's `StartsWith(null)` throws
        if db.customers == [] then Failure(Query(SequenceContainsNoElements)) else Failure(ArgumentNull)
      case _ => Failure(InvalidCast)
  }

  /** The generated code of the list query: every name, whatever the arguments. */
  function ListQueryBody(db: TestModel, args: seq<Value>): (r: Result<Value, InnerFault>)
    ensures r.Success? && r.value.StrList?
    ensures |r.value.items| == |db.customers|
    ensures forall i :: 0 <= i < |db.customers| ==> r.value.items[i] == db.customers[i].name
  {
    Success(StrList(ListOfCustomerNames(db)))
  }

  /**
   * The compiler applied to the two test queries: the prefix query compiles
   * when `@arg0` is a string (there is no `StartsWith(int)`), the list query
   * whatever its arguments; any other text is rejected here.
   */
  function GeneratedCode(text: string, types: seq<ValueType>): (r: Result<QueryBody, string>)
    ensures r.Success? <==>
              (text == FirstCustomersNameStartingWithArg0 && |types| >= 1 && types[0] == StringType) ||
              text == ListOfCustomerNamesText
    ensures r.Success? && text == FirstCustomersNameStartingWithArg0 ==> r.value == PrefixQueryBody
    ensures r.Success? && text == ListOfCustomerNamesText ==> r.value == ListQueryBody
  {
    if text == FirstCustomersNameStartingWithArg0 then
      if |types| >= 1 && types[0] == StringType then Success(PrefixQueryBody)
      else Failure("no StartsWith overload for @arg0")
    else if text == ListOfCustomerNamesText then Success(ListQueryBody)
    else Failure("not one of the test queries")
  }

  // ---------------------------------------------------------------------
  // The properties the tests assert

  /** A fresh compiler has compiled nothing; the first call compiles once, the same call again does not. */
  lemma RepeatedQueryIsCached(compile: Compiler, text: string, args: seq<Value>)
    requires ArgTypes(args).Some? && compile(text, ArgTypes(args).value).Success?
    ensures Fresh.compilerInvocations == 0
    ensures var first := Resolve(Fresh, compile, text, args);
            first.state.compilerInvocations == 1 && first.result.Success? &&
            var second := Resolve(first.state, compile, text, args);
            second.state.compilerInvocations == 1 && second.result == first.result
  {}

  /** Same text, other argument values: the cached code is reused and nothing is recompiled. */
  lemma RepeatedQueryIsCachedWhenParametersDiffer(compile: Compiler, text: string, args1: seq<Value>, args2: seq<Value>)
    requires ArgTypes(args1).Some? && compile(text, ArgTypes(args1).value).Success?
    ensures var first := Resolve(Fresh, compile, text, args1);
            var second := Resolve(first.state, compile, text, args2);
            second.state.compilerInvocations == 1 && second.result == first.result
  {}

  /** With `ForceCompilation` set, every call with non-null arguments compiles exactly once more. */
  lemma RepeatedQueryIsCompiledWhenCompilationIsForced(st: CacheState, compile: Compiler, text: string, args: seq<Value>)
    requires st.forceCompilation && ArgTypes(args).Some?
    ensures Resolve(st, compile, text, args).state.compilerInvocations == st.compilerInvocations + 1
    ensures var once := Resolve(st, compile, text, args).state;
            Resolve(once, compile, text, args).state.compilerInvocations == st.compilerInvocations + 2
  {}

  /** A null argument makes compilation fail: no entry, no compiler call. */
  lemma CompilationFailsWhenPassedNullArgument(compile: Compiler, text: string, args: seq<Value>)
    requires NullRef in args
    ensures Resolve(Fresh, compile, text, args) == Resolution(Fresh, Failure(NullArgument))
  {
    var i :| 0 <= i < |args| && args[i] == NullRef;
  }

  /**
   * The prefix query cached for a string argument, executed again with a
   * boxed int: the cached code is reused, and its cast of `args[0]` to
   * string fails inside the invocation.
   */
  lemma ExecutionFailsForMismatchedArgumentTypeOnSecondInvocation(db: TestModel)
    ensures var first := ExecuteQueryText(Fresh, GeneratedCode, db, FirstCustomersNameStartingWithArg0, [Str("H")]);
            var second := ExecuteQueryText(first.state, GeneratedCode, db, FirstCustomersNameStartingWithArg0, [Int(42)]);
            second.result == Failure(InvocationFailure(InvalidCast)) &&
            second.state.compilerInvocations == 1
  {
    var args := [Str("H")];
    ArgTypesOfOne(Str("H"));
    var first := Resolve(Fresh, GeneratedCode, FirstCustomersNameStartingWithArg0, args);
    assert first.state.cache[FirstCustomersNameStartingWithArg0].paramTypes == [StringType];
    assert CastArgs([StringType], [Int(42)]) == Some(InvalidCast);
  }

  /** The entry the prefix query compiles to for a string `@arg0`. */
  const PrefixQuery := CompiledQuery([StringType], PrefixQueryBody)

  /** A fresh compiler resolves the prefix query, for any string argument, by compiling it once. */
  lemma ResolvePrefixQueryOnFresh(arg0: string)
    ensures Resolve(Fresh, GeneratedCode, FirstCustomersNameStartingWithArg0, [Str(arg0)])
            == Resolution(CacheState(map[FirstCustomersNameStartingWithArg0 := PrefixQuery], 1, false), Success(PrefixQuery))
  {
    ArgTypesOfOne(Str(arg0));
  }

  /** The compiled prefix query, invoked with a string, runs `QueryExpr` with it. */
  lemma InvokePrefixQuery(db: TestModel, arg0: string)
    ensures Invoke(PrefixQuery, db, [Str(arg0)])
            == match QueryExpr(db, arg0)
               case Success(name) => Success(Str(name))
               case Failure(f) => Failure(InvocationFailure(Query(f)))
  {
    assert CastArgs([StringType], [Str(arg0)]).None?;
  }

  /**
   * One compiled prefix query, run with "Ho" and then "Ro" on the model with
   * "Homer Simpson" and "Robert Friberg": Homer, then Robert, one compilation.
   */
  lemma CanExecuteQueryWithNewDifferentParameters()
    ensures var first := ExecuteQueryText(Fresh, GeneratedCode, HomerAndRobert(), FirstCustomersNameStartingWithArg0, [Str("Ho")]);
            var second := ExecuteQueryText(first.state, GeneratedCode, HomerAndRobert(), FirstCustomersNameStartingWithArg0, [Str("Ro")]);
            first.result == Success(Str("Homer Simpson")) &&
            second.result == Success(Str("Robert Friberg")) &&
            second.state.compilerInvocations == 1
  {
    PrefixQueryOnHomerAndRobert();
    ResolvePrefixQueryOnFresh("Ho");
    InvokePrefixQuery(HomerAndRobert(), "Ho");
    InvokePrefixQuery(HomerAndRobert(), "Ro");
  }

  /**
   * A null `@arg0` on a cache hit passes the string cast; with no customers
   * the deferred `where` never calls `StartsWith`, so `First` finds no elements.
   */
  lemma NullPrefixOnEmptyModelFindsNoElements()
    ensures var first := ExecuteQueryText(Fresh, GeneratedCode, TestModel([]), FirstCustomersNameStartingWithArg0, [Str("H")]);
            var second := ExecuteQueryText(first.state, GeneratedCode, TestModel([]), FirstCustomersNameStartingWithArg0, [NullRef]);
            second.result == Failure(InvocationFailure(Query(SequenceContainsNoElements)))
  {
    ResolvePrefixQueryOnFresh("H");
    assert CastArgs([StringType], [NullRef]).None?;
  }

  /** The list query through the cache: the names in insertion order. */
  lemma CanExecuteListQuery()
    ensures var db := AddCustomer(AddCustomer(TestModel([]), "Zippy"), "Droozy");
            ExecuteQueryText(Fresh, GeneratedCode, db, ListOfCustomerNamesText, []).result
              == Success(StrList(["Zippy", "Droozy"]))
  {
    ZippyThenDroozy();
    assert ArgTypes([]) == Some([]);
  }
}
