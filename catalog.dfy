/** The product catalog and `find_product`: an exact identifier match first, then a
    case-insensitive search of the product names that must hit exactly one product. */
module Catalog {
  import opened Text

  /** One catalog record: display name and unit price. */
  datatype Entry = Entry(name: string, price: real)

  /** The catalog as (identifier, entry) pairs in the dictionary's insertion order. */
  type Listing = seq<(string, Entry)>

  /** The fixed `PRODUCTS` table. */
  function Products(): Listing {
    [ ("101", Entry("Apple", 1.50)),
      ("102", Entry("Banana", 0.75)),
      ("103", Entry("Orange", 1.20)),
      ("201", Entry("Milk (1L)", 3.00)),
      ("202", Entry("Bread", 2.20)),
      ("301", Entry("Chocolate Bar", 1.00)),
      ("302", Entry("Chips (Large)", 2.50)),
      ("401", Entry("Water Bottle", 0.80)),
      ("501", Entry("Coffee (Instant)", 5.00)),
      ("601", Entry("Soda (Can)", 1.10)) ]
  }

  /** A dictionary's keys are distinct. */
  predicate UniqueIds(c: Listing) {
    forall i, j :: 0 <= i < j < |c| ==> c[i].0 != c[j].0
  }

  predicate PricesNonNegative(c: Listing) {
    forall i :: 0 <= i < |c| ==> c[i].1.price >= 0.0
  }

  /** The key-to-entry view of the listing, as the dictionary literal builds it. */
  function Table(c: Listing): map<string, Entry> {
    if c == [] then map[] else Table(c[..|c| - 1])[c[|c| - 1].0 := c[|c| - 1].1]
  }

  /** Every key of the table is listed, together with the entry the table gives it. */
  lemma {:induction false} TableListed(c: Listing, id: string)
    requires id in Table(c)
    ensures exists i :: 0 <= i < |c| && c[i] == (id, Table(c)[id])
  {
    var n := |c| - 1;
    if id != c[n].0 {
      var front := c[..n];
      TableListed(front, id);
      var i :| 0 <= i < |front| && front[i] == (id, Table(front)[id]);
      assert c[i] == front[i];
    }
  }

  /** With distinct identifiers, the table gives each identifier the entry listed with it. */
  lemma {:induction false} TableAt(c: Listing, i: int)
    requires UniqueIds(c)
    requires 0 <= i < |c|
    ensures c[i].0 in Table(c) && Table(c)[c[i].0] == c[i].1
  {
    if i < |c| - 1 {
      var front := c[..|c| - 1];
      TableAt(front, i);
      assert front[i] == c[i];
    }
  }

  /** The fixed catalog is a well-formed dictionary with non-negative prices. */
  lemma ProductsWellFormed()
    ensures UniqueIds(Products()) && PricesNonNegative(Products())
  {
  }

  /** The name test of `find_product`: the lower-cased query occurs in the lower-cased name. */
  predicate NameMatches(name: string, query: string) {
    IsSubstring(Lower(query), Lower(name))
  }

  /** Product `i` of the listing is a name hit for `query`. */
  predicate MatchAt(c: Listing, query: string, i: int) {
    0 <= i < |c| && NameMatches(c[i].1.name, query)
  }

  /** The list comprehension of `find_product`: the entries whose name matches, in catalog order. */
  function Matches(c: Listing, query: string): seq<Entry> {
    if c == [] then []
    else
      var last := c[|c| - 1];
      Matches(c[..|c| - 1], query) + (if NameMatches(last.1.name, query) then [last.1] else [])
  }

  /** The comprehension grows by the last product exactly when that product's name matches. */
  lemma MatchesStep(c: Listing, query: string)
    requires c != []
    ensures var n := |c| - 1;
      Matches(c, query) == Matches(c[..n], query) + (if MatchAt(c, query, n) then [c[n].1] else [])
    ensures forall i :: 0 <= i < |c| - 1 ==> (MatchAt(c[..|c| - 1], query, i) <==> MatchAt(c, query, i))
  {
  }

  /** The comprehension is empty exactly when no name matches. */
  lemma {:induction false} MatchesEmpty(c: Listing, query: string)
    ensures |Matches(c, query)| == 0 <==> forall i :: 0 <= i < |c| ==> !MatchAt(c, query, i)
  {
    if c != [] {
      var n := |c| - 1;
      MatchesStep(c, query);
      MatchesEmpty(c[..n], query);
      if forall i :: 0 <= i < |c| ==> !MatchAt(c, query, i) {
        forall i | 0 <= i < n
          ensures !MatchAt(c[..n], query, i)
        {
          assert !MatchAt(c, query, i);
        }
        assert !MatchAt(c, query, n);
      }
    }
  }

  /** A one-element comprehension holds the entry of the one product whose name matches. */
  lemma {:induction false} MatchesSingle(c: Listing, query: string)
    requires |Matches(c, query)| == 1
    ensures exists i :: MatchAt(c, query, i) && c[i].1 == Matches(c, query)[0]
                        && forall j :: MatchAt(c, query, j) ==> j == i
  {
    var n := |c| - 1;
    var front := c[..n];
    MatchesStep(c, query);
    if MatchAt(c, query, n) {
      MatchesEmpty(front, query);
      assert MatchAt(c, query, n) && c[n].1 == Matches(c, query)[0];
    } else {
      MatchesSingle(front, query);
      var i :| MatchAt(front, query, i) && front[i].1 == Matches(front, query)[0]
               && forall j :: MatchAt(front, query, j) ==> j == i;
      assert MatchAt(c, query, i) && c[i].1 == Matches(c, query)[0];
    }
  }

  /** A comprehension of two or more elements comes from two distinct matching products. */
  lemma {:induction false} MatchesSeveral(c: Listing, query: string)
    requires |Matches(c, query)| >= 2
    ensures exists i, j :: i != j && MatchAt(c, query, i) && MatchAt(c, query, j)
  {
    var n := |c| - 1;
    var front := c[..n];
    MatchesStep(c, query);
    if |Matches(front, query)| >= 2 {
      MatchesSeveral(front, query);
      var i, j :| i != j && MatchAt(front, query, i) && MatchAt(front, query, j);
      assert MatchAt(c, query, i) && MatchAt(c, query, j);
    } else {
      MatchesSingle(front, query);
      var i :| MatchAt(front, query, i) && front[i].1 == Matches(front, query)[0];
      assert MatchAt(c, query, i) && MatchAt(c, query, n);
    }
  }

  /** The size of the comprehension, read as "no hit", "exactly one hit" and "several hits". */
  lemma {:induction false} MatchesOutcome(c: Listing, query: string)
    ensures |Matches(c, query)| == 0 <==> forall i :: 0 <= i < |c| ==> !MatchAt(c, query, i)
    ensures |Matches(c, query)| == 1 <==>
      exists i :: MatchAt(c, query, i) && forall j :: MatchAt(c, query, j) ==> j == i
    ensures |Matches(c, query)| == 1 ==>
      exists i :: MatchAt(c, query, i) && c[i].1 == Matches(c, query)[0]
    ensures |Matches(c, query)| >= 2 <==>
      exists i, j :: i != j && MatchAt(c, query, i) && MatchAt(c, query, j)
  {
    MatchesEmpty(c, query);
    if |Matches(c, query)| == 1 {
      MatchesSingle(c, query);
    } else if |Matches(c, query)| >= 2 {
      MatchesSeveral(c, query);
    }
  }

  /** The outcome of a lookup; an ambiguous query is reported together with the query. */
  datatype Lookup = Found(entry: Entry) | NotFound | Ambiguous(query: string)

  /** `find_product(query)`: an identifier of the catalog resolves to its own entry; any other
      query is searched for among the names. Whatever it finds is an entry of the catalog. */
  function FindProduct(c: Listing, query: string): Lookup {
    if query in Table(c) then Found(Table(c)[query])
    else
      var found := Matches(c, query);
      if |found| == 1 then Found(found[0])
      else if |found| > 1 then Ambiguous(query)
      else NotFound
  }

  /** A lookup only ever yields an entry of the catalog, and an ambiguous lookup reports the
      query it was given. */
  lemma FoundIsListed(c: Listing, query: string)
    ensures FindProduct(c, query).Found? ==>
      exists i :: 0 <= i < |c| && c[i].1 == FindProduct(c, query).entry
    ensures FindProduct(c, query).Ambiguous? ==> FindProduct(c, query).query == query
  {
    if query in Table(c) {
      TableListed(c, query);
    } else {
      MatchesOutcome(c, query);
    }
  }

  /** An exact identifier wins: the name search is not consulted. */
  lemma FindPrefersId(c: Listing, query: string)
    requires query in Table(c)
    ensures FindProduct(c, query) == Found(Table(c)[query])
  {
  }

  /** A query that is not an identifier and whose lower-cased form occurs in no lower-cased
      name is not found, and only such a query. */
  lemma FindNoName(c: Listing, query: string)
    requires query !in Table(c)
    ensures FindProduct(c, query) == NotFound <==> forall i :: 0 <= i < |c| ==> !MatchAt(c, query, i)
  {
    MatchesOutcome(c, query);
  }

  /** A query that is not an identifier resolves exactly when one product's name matches it,
      and it resolves to that product. */
  lemma FindUniqueName(c: Listing, query: string)
    requires query !in Table(c)
    ensures FindProduct(c, query).Found? <==>
      exists i :: MatchAt(c, query, i) && forall j :: MatchAt(c, query, j) ==> j == i
    ensures FindProduct(c, query).Found? ==>
      exists i :: MatchAt(c, query, i) && c[i].1 == FindProduct(c, query).entry
  {
    MatchesOutcome(c, query);
  }

  /** A query that is not an identifier is ambiguous exactly when two products' names match. */
  lemma FindAmbiguousName(c: Listing, query: string)
    requires query !in Table(c)
    ensures FindProduct(c, query) == Ambiguous(query) <==>
      exists i, j :: i != j && MatchAt(c, query, i) && MatchAt(c, query, j)
  {
    MatchesOutcome(c, query);
  }

  /** Looking a product up by its identifier yields that product. */
  lemma FindById(c: Listing, i: int)
    requires UniqueIds(c)
    requires 0 <= i < |c|
    ensures FindProduct(c, c[i].0) == Found(c[i].1)
  {
    TableAt(c, i);
  }

  /** The name search ignores case: two queries that lower-case alike give the same name
      matches. */
  lemma {:induction false} NameSearchIgnoresCase(c: Listing, q1: string, q2: string)
    requires Lower(q1) == Lower(q2)
    ensures Matches(c, q1) == Matches(c, q2)
  {
    if c != [] {
      NameSearchIgnoresCase(c[..|c| - 1], q1, q2);
    }
  }

  /** Two queries that lower-case alike and are not identifiers resolve to the same product,
      are both not found, or are both ambiguous. */
  lemma FindIgnoresCase(c: Listing, q1: string, q2: string)
    requires Lower(q1) == Lower(q2)
    requires q1 !in Table(c) && q2 !in Table(c)
    ensures FindProduct(c, q1).Found? ==> FindProduct(c, q2) == FindProduct(c, q1)
    ensures FindProduct(c, q1) == NotFound <==> FindProduct(c, q2) == NotFound
    ensures FindProduct(c, q1).Ambiguous? <==> FindProduct(c, q2).Ambiguous?
  {
    NameSearchIgnoresCase(c, q1, q2);
  }

  /** In the shipped catalog, the query "a" hits several names and is ambiguous. */
  lemma SingleLetterIsAmbiguous()
    ensures FindProduct(Products(), "a") == Ambiguous("a")
  {
    var c := Products();
    var apple, banana := Lower(c[0].1.name), Lower(c[1].1.name);
    assert apple[0] == LowerChar('A') == 'a';
    assert apple[0..1] == "a";
    assert banana[1] == LowerChar('a') == 'a';
    assert banana[1..2] == "a";
    assert Lower("a") == "a";
    assert OccursAt("a", apple, 0) && OccursAt("a", banana, 1);
    assert MatchAt(c, "a", 0) && MatchAt(c, "a", 1);
    assert "a" !in Table(c) by {
      if "a" in Table(c) {
        TableListed(c, "a");
      }
    }
    FindAmbiguousName(c, "a");
  }
}
