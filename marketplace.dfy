/**
 * The buyer's marketplace list with its search box, and the farmer's own
 * product list.
 */
module Marketplace {
  import opened Text
  import opened Products

  /** The product's lower-cased name contains the (already lower-cased) query `q`. */
  predicate NameMatches(p: Product, q: string)
  {
    Includes(Lower(p.productName), q)
  }

  /** `r` is `s` with some elements left out, the others kept in their order. */
  predicate IsSubsequence(r: seq<Product>, s: seq<Product>)
    decreases |s|
  {
    if r == [] then true
    else if s == [] then false
    else if r[0] == s[0] then IsSubsequence(r[1..], s[1..])
    else IsSubsequence(r, s[1..])
  }

  /**
   * The products whose lower-cased name contains `q`. The result keeps the
   * input's order, holds only matching products, and holds every matching
   * product as often as the input does.
   */
  function Filter(products: seq<Product>, q: string): (r: seq<Product>)
    ensures |r| <= |products|
    ensures forall i :: 0 <= i < |r| ==> NameMatches(r[i], q)
    ensures forall x :: multiset(r)[x] == if NameMatches(x, q) then multiset(products)[x] else 0
    ensures IsSubsequence(r, products)
  {
    if products == [] then []
    else
      assert products == [products[0]] + products[1..];
      if NameMatches(products[0], q) then [products[0]] + Filter(products[1..], q)
      else Filter(products[1..], q)
  }

  /** A subsequence never holds an element more often than the sequence it is taken from. */
  lemma {:induction false} SubsequenceCounts(r: seq<Product>, s: seq<Product>)
    requires IsSubsequence(r, s)
    ensures forall x :: multiset(r)[x] <= multiset(s)[x]
    decreases |s|
  {
    if r != [] {
      assert s == [s[0]] + s[1..];
      if r[0] == s[0] {
        assert r == [r[0]] + r[1..];
        SubsequenceCounts(r[1..], s[1..]);
      } else {
        SubsequenceCounts(r, s[1..]);
      }
    }
  }

  /** Dropping a leading element the subsequence does not start with keeps it a subsequence. */
  lemma SubsequenceOfTail(r: seq<Product>, s: seq<Product>)
    requires s != [] && IsSubsequence(r, s)
    requires r == [] || r[0] != s[0]
    ensures IsSubsequence(r, s[1..])
  {
  }

  /**
   * `Filter` is the only sequence with its three properties: any order-keeping
   * selection from `products` that holds only matching products and each
   * matching product as often as `products` does is `Filter(products, q)`.
   */
  lemma {:induction false} FilterUnique(products: seq<Product>, q: string, r: seq<Product>)
    requires IsSubsequence(r, products)
    requires forall i :: 0 <= i < |r| ==> NameMatches(r[i], q)
    requires forall x :: NameMatches(x, q) ==> multiset(r)[x] == multiset(products)[x]
    ensures r == Filter(products, q)
    decreases |products|
  {
    if products == [] {
      assert r == [];
    } else {
      var p := products[0];
      var tail := products[1..];
      assert products == [p] + tail;
      if r != [] && r[0] == p {
        assert r == [p] + r[1..];
        assert NameMatches(p, q) by { assert NameMatches(r[0], q); }
        forall i | 0 <= i < |r[1..]|
          ensures NameMatches(r[1..][i], q)
        {
          assert r[1..][i] == r[i + 1];
        }
        FilterUnique(tail, q, r[1..]);
      } else {
        SubsequenceOfTail(r, products);
        if NameMatches(p, q) {
          SubsequenceCounts(r, tail);
          assert false;
        }
        FilterUnique(tail, q, r);
      }
    }
  }

  /** What the search box shows for the text `typed`: always filtered from the full fetched list. */
  function SearchResults(products: seq<Product>, typed: string): (r: seq<Product>)
    ensures |r| <= |products|
    ensures forall x :: x in r <==> x in products && NameMatches(x, Lower(typed))
  {
    Filter(products, Lower(typed))
  }

  /** An empty search box shows the whole fetched list. */
  lemma {:induction false} EmptySearchShowsAll(products: seq<Product>)
    ensures SearchResults(products, "") == products
    decreases |products|
  {
    if products != [] {
      IncludesEmpty(Lower(products[0].productName));
      EmptySearchShowsAll(products[1..]);
    }
  }

  /**
   * Filtering an earlier result again with a longer query `b` that contains the
   * earlier query `a` gives what filtering the full list with `b` gives. Going
   * the other way fails: see `ShorteningNeedsFullList`.
   */
  lemma {:induction false} NarrowingFilter(products: seq<Product>, a: string, b: string)
    requires Includes(b, a)
    ensures Filter(Filter(products, a), b) == Filter(products, b)
    decreases |products|
  {
    if products != [] {
      var p := products[0];
      NarrowingFilter(products[1..], a, b);
      if NameMatches(p, b) {
        IncludesTransitive(Lower(p.productName), b, a);
      }
    }
  }

  /**
   * Shortening the query cannot be answered from the earlier result: after
   * typing "ab" only the product named "ab" is left, while the query "a" on the
   * full list also shows the product named "a".
   */
  lemma ShorteningNeedsFullList(a: Product, b: Product)
    requires a.productName == "ab" && b.productName == "a"
    ensures Filter(Filter([a, b], "ab"), "a") != Filter([a, b], "a")
  {
    assert Lower("ab") == "ab" && Lower("a") == "a";
    assert OccursAt("ab", "ab", 0) && OccursAt("ab", "a", 0) && OccursAt("a", "a", 0);
    assert !Includes("a", "ab");
    assert [a, b][1..] == [b];
    assert Filter([a, b], "ab") == [a];
    assert Filter([a, b], "a") == [a, b];
  }

  /** The search ignores the case of the typed text: typing it lower-cased shows the same products. */
  lemma SearchIgnoresCase(products: seq<Product>, typed: string)
    ensures SearchResults(products, Lower(typed)) == SearchResults(products, typed)
  {
    LowerIdempotent(typed);
  }

  /** The rendered marketplace list, re-rendered on every keystroke in the search box. */
  class MarketView {
    /** The product list fetched once when the page loads. */
    const products: seq<Product>
    /** The products currently rendered. */
    var shown: seq<Product>

    /** The first render shows every fetched product. */
    constructor (fetched: seq<Product>)
      ensures products == fetched && shown == fetched
    {
      products := fetched;
      shown := fetched;
    }

    /** An input event on the search box: lower-case the box's text and re-render from the fetched list. */
    method OnSearchInput(typed: string)
      modifies this
      ensures shown == SearchResults(products, typed)
      ensures typed == "" ==> shown == products
    {
      shown := Filter(products, Lower(typed));
      EmptySearchShowsAll(products);
    }
  }

  /** One row of the farmer's list, with its Edit and Delete controls. */
  datatype Row = Row(name: string, product: Product, editId: int, deleteId: int)

  /** The farmer's list: the "No products yet" placeholder, or one row per product. */
  datatype FarmerView = NoProductsYet | Listing(rows: seq<Row>)

  /** The rows of the farmer's list, in the order the products were fetched. */
  function Rows(products: seq<Product>): (rows: seq<Row>)
    ensures |rows| == |products|
    ensures forall i :: 0 <= i < |products| ==>
      rows[i].product == products[i] && rows[i].name == products[i].productName &&
      rows[i].editId == products[i].productId && rows[i].deleteId == products[i].productId
  {
    if products == [] then []
    else
      var p := products[0];
      [Row(p.productName, p, p.productId, p.productId)] + Rows(products[1..])
  }

  /** What the farmer dashboard renders for the fetched products. */
  function FarmerListView(products: seq<Product>): (v: FarmerView)
    ensures v.NoProductsYet? <==> |products| == 0
    ensures v.Listing? ==> |v.rows| == |products| && |v.rows| > 0
    ensures v.Listing? ==> forall i :: 0 <= i < |products| ==>
      v.rows[i].editId == products[i].productId && v.rows[i].deleteId == products[i].productId
  {
    if |products| == 0 then NoProductsYet else Listing(Rows(products))
  }

  /** A control on a row of the farmer's list: Edit opens the edit page for the id, Delete removes it. */
  datatype Control = EditControl(productId: int) | DeleteControl(productId: int)

  /** The controls of a list of rows, row by row: each row's Edit, then its Delete. */
  function RowControls(rows: seq<Row>): seq<Control>
  {
    if rows == [] then []
    else [EditControl(rows[0].editId), DeleteControl(rows[0].deleteId)] + RowControls(rows[1..])
  }

  /** Every control a view offers, in page order. */
  function Controls(v: FarmerView): seq<Control>
  {
    match v
    case NoProductsYet => []
    case Listing(rows) => RowControls(rows)
  }

  /** Each row contributes exactly two controls. */
  lemma {:induction false} RowControlsLength(rows: seq<Row>)
    ensures |RowControls(rows)| == 2 * |rows|
    decreases |rows|
  {
    if rows != [] {
      RowControlsLength(rows[1..]);
    }
  }

  /** Row `i`'s Edit and Delete controls sit at positions `2 * i` and `2 * i + 1`. */
  lemma {:induction false} RowControlsAt(rows: seq<Row>, i: int)
    requires 0 <= i < |rows|
    ensures |RowControls(rows)| == 2 * |rows|
    ensures RowControls(rows)[2 * i] == EditControl(rows[i].editId)
    ensures RowControls(rows)[2 * i + 1] == DeleteControl(rows[i].deleteId)
    decreases |rows|
  {
    RowControlsLength(rows);
    if i > 0 {
      RowControlsAt(rows[1..], i - 1);
      assert rows[1..][i - 1] == rows[i];
    }
  }

  /**
   * The dashboard offers, for each product in order, an Edit and then a Delete
   * control for that product's id, and no control at all when the list is empty.
   */
  lemma FarmerControls(products: seq<Product>)
    ensures |Controls(FarmerListView(products))| == 2 * |products|
    ensures forall i :: 0 <= i < |products| ==>
      Controls(FarmerListView(products))[2 * i] == EditControl(products[i].productId) &&
      Controls(FarmerListView(products))[2 * i + 1] == DeleteControl(products[i].productId)
  {
    var v := FarmerListView(products);
    if products != [] {
      RowControlsLength(v.rows);
      forall i | 0 <= i < |products|
        ensures Controls(v)[2 * i] == EditControl(products[i].productId)
        ensures Controls(v)[2 * i + 1] == DeleteControl(products[i].productId)
      {
        RowControlsAt(v.rows, i);
      }
    }
  }
}
