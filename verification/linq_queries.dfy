/**
 * The two queries the tests run against the test model's customers:
 * `CompiledQuery.QueryExpr` (the first customer name, in name order, that
 * starts with a prefix) and the list of all customer names. Each LINQ
 * operator (`where`, `orderby`, `select`, `First`) is a function.
 */
module LinqQueries {
  import opened ClrTypes

  datatype Customer = Customer(name: string)

  /** The test model: its customers in the order they were added. */
  datatype TestModel = TestModel(customers: seq<Customer>)

  function AddCustomer(db: TestModel, name: string): TestModel {
    TestModel(db.customers + [Customer(name)])
  }

  /** `Enumerable.First` on an empty sequence: an InvalidOperationException. */
  datatype QueryFault = SequenceContainsNoElements

  // ---------------------------------------------------------------------
  // Ordinal string order

  /** Ordinal comparison: lexicographic on character codes, a proper prefix first. */
  predicate LessEq(a: string, b: string) {
    a == [] || (b != [] && (a[0] < b[0] || (a[0] == b[0] && LessEq(a[1..], b[1..]))))
  }

  lemma {:induction false} LessEqIsReflexive(a: string)
    ensures LessEq(a, a)
  {
    if a != [] {
      LessEqIsReflexive(a[1..]);
    }
  }

  lemma {:induction false} LessEqIsAntisymmetric(a: string, b: string)
    requires LessEq(a, b) && LessEq(b, a)
    ensures a == b
  {
    if a != [] && b != [] {
      LessEqIsAntisymmetric(a[1..], b[1..]);
      assert a == [a[0]] + a[1..] && b == [b[0]] + b[1..];
    }
  }

  lemma {:induction false} LessEqIsTransitive(a: string, b: string, c: string)
    requires LessEq(a, b) && LessEq(b, c)
    ensures LessEq(a, c)
  {
    if a != [] && a[0] == b[0] && b[0] == c[0] {
      LessEqIsTransitive(a[1..], b[1..], c[1..]);
    }
  }

  lemma {:induction false} LessEqIsTotal(a: string, b: string)
    ensures LessEq(a, b) || LessEq(b, a)
  {
    if a != [] && b != [] && a[0] == b[0] {
      LessEqIsTotal(a[1..], b[1..]);
    }
  }

  /** Ordinal `StartsWith`: `prefix` is a prefix of `s`. */
  predicate StartsWith(s: string, prefix: string) {
    prefix <= s
  }

  // ---------------------------------------------------------------------
  // LINQ operators

  /** `where customer.Name.StartsWith(prefix)`: the matching customers, in their original order. */
  function Where(cs: seq<Customer>, prefix: string): (r: seq<Customer>)
    ensures forall c :: c in r <==> c in cs && StartsWith(c.name, prefix)
    ensures |r| <= |cs|
  {
    if cs == [] then []
    else (if StartsWith(cs[0].name, prefix) then [cs[0]] else []) + Where(cs[1..], prefix)
  }

  /** `where` keeps every matching customer as many times as it occurs, and drops every other one. */
  lemma {:induction false} WhereKeepsMultiplicity(cs: seq<Customer>, prefix: string)
    ensures forall c :: multiset(Where(cs, prefix))[c] == if StartsWith(c.name, prefix) then multiset(cs)[c] else 0
  {
    if cs != [] {
      WhereKeepsMultiplicity(cs[1..], prefix);
      assert cs == [cs[0]] + cs[1..];
    }
  }

  /** One step of `where`: the head is kept or dropped, the rest is filtered on its own. */
  lemma WhereStep(c: Customer, rest: seq<Customer>, prefix: string)
    ensures Where([c] + rest, prefix) == (if StartsWith(c.name, prefix) then [c] else []) + Where(rest, prefix)
  {
    assert ([c] + rest)[0] == c && ([c] + rest)[1..] == rest;
  }

  /** `where` filters each part of a sequence on its own: the kept customers stay in their order. */
  lemma {:induction false} WhereDistributes(a: seq<Customer>, b: seq<Customer>, prefix: string)
    ensures Where(a + b, prefix) == Where(a, prefix) + Where(b, prefix)
  {
    if a == [] {
      assert a + b == b;
    } else {
      var c, rest := a[0], a[1..];
      assert a == [c] + rest && a + b == [c] + (rest + b);
      WhereDistributes(rest, b, prefix);
      WhereStep(c, rest + b, prefix);
      WhereStep(c, rest, prefix);
    }
  }

  predicate SortedByName(cs: seq<Customer>) {
    forall i, j :: 0 <= i < j < |cs| ==> LessEq(cs[i].name, cs[j].name)
  }

  /** A customer whose name is below every name of a sorted sequence can go in front of it. */
  lemma SortedCons(c: Customer, cs: seq<Customer>)
    requires SortedByName(cs)
    requires forall j :: 0 <= j < |cs| ==> LessEq(c.name, cs[j].name)
    ensures SortedByName([c] + cs)
  {
    var r := [c] + cs;
    forall i, j | 0 <= i < j < |r|
      ensures LessEq(r[i].name, r[j].name)
    {
      if i > 0 {
        assert r[i] == cs[i - 1] && r[j] == cs[j - 1];
      }
    }
  }

  /** A name below the head of a sorted sequence (if any) is below all of it. */
  lemma BelowHeadIsBelowAll(c: Customer, cs: seq<Customer>)
    requires SortedByName(cs) && (cs == [] || LessEq(c.name, cs[0].name))
    ensures forall j :: 0 <= j < |cs| ==> LessEq(c.name, cs[j].name)
  {
    forall j | 0 < j < |cs|
      ensures LessEq(c.name, cs[j].name)
    {
      LessEqIsTransitive(c.name, cs[0].name, cs[j].name);
    }
  }

  /** A lower bound of every customer of `tail` and of `c` bounds any rearrangement of them. */
  lemma LowerBoundOfPermutation(h: Customer, tail: seq<Customer>, c: Customer, rest: seq<Customer>)
    requires forall j :: 0 <= j < |tail| ==> LessEq(h.name, tail[j].name)
    requires LessEq(h.name, c.name)
    requires multiset(rest) == multiset(tail) + multiset{c}
    ensures forall j :: 0 <= j < |rest| ==> LessEq(h.name, rest[j].name)
  {
    forall j | 0 <= j < |rest|
      ensures LessEq(h.name, rest[j].name)
    {
      assert rest[j] in multiset(rest);
      if rest[j] != c {
        assert rest[j] in multiset(tail);
        var k :| 0 <= k < |tail| && tail[k] == rest[j];
      }
    }
  }

  /** Inserts `c` into sorted `cs` ahead of every customer whose name is not below it. */
  function InsertByName(c: Customer, cs: seq<Customer>): (r: seq<Customer>)
    requires SortedByName(cs)
    ensures SortedByName(r)
    ensures multiset(r) == multiset(cs) + multiset{c}
  {
    if cs == [] || LessEq(c.name, cs[0].name) then
      BelowHeadIsBelowAll(c, cs);
      SortedCons(c, cs);
      [c] + cs
    else
      var rest := InsertByName(c, cs[1..]);
      assert cs == [cs[0]] + cs[1..];
      LessEqIsTotal(c.name, cs[0].name);
      LowerBoundOfPermutation(cs[0], cs[1..], c, rest);
      SortedCons(cs[0], rest);
      [cs[0]] + rest
  }

  /** `orderby customer.Name`: a stable sort by ordinal name order. */
  function OrderByName(cs: seq<Customer>): (r: seq<Customer>)
    ensures SortedByName(r)
    ensures multiset(r) == multiset(cs)
  {
    if cs == [] then []
    else
      assert cs == [cs[0]] + cs[1..];
      InsertByName(cs[0], OrderByName(cs[1..]))
  }

  /** `select customer.Name`: the names, position by position. */
  function Names(cs: seq<Customer>): (r: seq<string>)
    ensures |r| == |cs|
    ensures forall i :: 0 <= i < |cs| ==> r[i] == cs[i].name
  {
    if cs == [] then [] else [cs[0].name] + Names(cs[1..])
  }

  /** `Enumerable.First`: the first element, or an exception on an empty sequence. */
  function First(xs: seq<string>): (r: Result<string, QueryFault>)
    ensures r.Success? <==> xs != []
    ensures r.Success? ==> r.value == xs[0]
  {
    if xs == [] then Failure(SequenceContainsNoElements) else Success(xs[0])
  }

  // ---------------------------------------------------------------------
  // The two queries

  /**
   * `CompiledQuery.QueryExpr`: `(from customer in db.Customers where
   * customer.Name.StartsWith(arg0) orderby customer.Name select
   * customer.Name).First()`.
   */
  function QueryExpr(db: TestModel, arg0: string): (r: Result<string, QueryFault>)
    ensures r.Failure? ==> r.error == SequenceContainsNoElements
    ensures r.Success? ==> StartsWith(r.value, arg0) && Customer(r.value) in db.customers
  {
    var sorted := OrderByName(Where(db.customers, arg0));
    assert sorted != [] ==> sorted[0] in multiset(Where(db.customers, arg0));
    First(Names(sorted))
  }

  /** `(from customer in db.Customers select customer.Name).ToList()`. */
  function ListOfCustomerNames(db: TestModel): (r: seq<string>)
    ensures |r| == |db.customers|
    ensures forall i :: 0 <= i < |db.customers| ==> r[i] == db.customers[i].name
  {
    Names(db.customers)
  }

  /**
   * The prefix query finds the least matching name: it succeeds exactly when
   * some customer's name starts with `arg0`, and then returns such a name,
   * one that no other matching name is below in ordinal order.
   */
  lemma QueryExprFindsLeastMatch(db: TestModel, arg0: string)
    ensures QueryExpr(db, arg0).Success? <==> exists c :: c in db.customers && StartsWith(c.name, arg0)
    ensures QueryExpr(db, arg0).Failure? ==> QueryExpr(db, arg0).error == SequenceContainsNoElements
    ensures QueryExpr(db, arg0).Success? ==>
              var n := QueryExpr(db, arg0).value;
              StartsWith(n, arg0) && Customer(n) in db.customers &&
              forall c :: c in db.customers && StartsWith(c.name, arg0) ==> LessEq(n, c.name)
  {
    var matching := Where(db.customers, arg0);
    var sorted := OrderByName(matching);
    assert forall c :: c in sorted <==> c in multiset(sorted);
    assert forall c :: c in matching <==> c in multiset(matching);
    if sorted != [] {
      assert sorted[0] in sorted;
      forall c | c in db.customers && StartsWith(c.name, arg0)
        ensures LessEq(sorted[0].name, c.name)
      {
        assert c in sorted;
        var k :| 0 <= k < |sorted| && sorted[k] == c;
        if k == 0 {
          LessEqIsReflexive(c.name);
        }
      }
    }
  }

  /** Adding a customer appends its name to the list query's result. */
  lemma ListOfCustomerNamesKeepsInsertionOrder(db: TestModel, name: string)
    ensures ListOfCustomerNames(AddCustomer(db, name)) == ListOfCustomerNames(db) + [name]
  {
    var after := AddCustomer(db, name);
    assert |ListOfCustomerNames(after)| == |ListOfCustomerNames(db) + [name]|;
    forall i | 0 <= i < |after.customers|
      ensures ListOfCustomerNames(after)[i] == (ListOfCustomerNames(db) + [name])[i]
    {
    }
  }

  /** Adding "Zippy" then "Droozy" lists `["Zippy", "Droozy"]`. */
  lemma ZippyThenDroozy()
    ensures ListOfCustomerNames(AddCustomer(AddCustomer(TestModel([]), "Zippy"), "Droozy")) == ["Zippy", "Droozy"]
  {
    ListOfCustomerNamesKeepsInsertionOrder(TestModel([]), "Zippy");
    ListOfCustomerNamesKeepsInsertionOrder(AddCustomer(TestModel([]), "Zippy"), "Droozy");
  }

  /** The two customers of the parameter test. */
  function HomerAndRobert(): TestModel {
    AddCustomer(AddCustomer(TestModel([]), "Homer Simpson"), "Robert Friberg")
  }

  /** With "Homer Simpson" and "Robert Friberg" added, "Ho" finds Homer and "Ro" finds Robert. */
  lemma PrefixQueryOnHomerAndRobert()
    ensures QueryExpr(HomerAndRobert(), "Ho") == Success("Homer Simpson")
    ensures QueryExpr(HomerAndRobert(), "Ro") == Success("Robert Friberg")
  {
    var homer, robert := Customer("Homer Simpson"), Customer("Robert Friberg");
    assert HomerAndRobert().customers == [homer, robert];
    assert homer.name[0] == 'H' && robert.name[0] == 'R';
    assert StartsWith(homer.name, "Ho") && !StartsWith(robert.name, "Ho");
    assert !StartsWith(homer.name, "Ro") && StartsWith(robert.name, "Ro");
    assert Where([homer, robert], "Ho") == [homer];
    assert Where([homer, robert], "Ro") == [robert];
  }
}
