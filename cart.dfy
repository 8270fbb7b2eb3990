/**
 * The buyer's cart: an ordered list of entries keyed by product id, kept in
 * one browser-storage slot. Adding a product bumps the quantity of the entry
 * that already has its id, or appends a fresh entry with quantity 1.
 */
module Cart {
  import opened Wrappers
  import opened Products

  /** The entry created the first time a product is added: a copy of the product with quantity 1. */
  function NewEntry(p: Product): (e: Product)
    ensures e.quantity == 1 && SameExceptQuantity(e, p)
  {
    p.(quantity := 1)
  }

  /** An existing entry after one more unit was added. */
  function Bumped(e: Product): (r: Product)
    ensures r.quantity == e.quantity + 1 && SameExceptQuantity(r, e)
  {
    e.(quantity := e.quantity + 1)
  }

  /** Some entry of the cart has product id `id`. */
  predicate HasId(cart: seq<Product>, id: int)
  {
    exists j :: 0 <= j < |cart| && cart[j].productId == id
  }

  /** The cart's invariant: at most one entry per product id. */
  predicate UniqueIds(cart: seq<Product>)
  {
    forall i, j :: 0 <= i < j < |cart| ==> cart[i].productId != cart[j].productId
  }

  /** `i` is the position of the first entry with id `id`, the one a front-to-back search stops at. */
  predicate FirstMatch(cart: seq<Product>, id: int, i: int)
  {
    0 <= i < |cart| && cart[i].productId == id &&
    forall j :: 0 <= j < i ==> cart[j].productId != id
  }

  /**
   * Reference definition of adding `p` to `cart`, entry by entry: the first
   * entry with `p`'s id is bumped; when there is none, a new entry goes at the end.
   * Whatever happens, every old entry keeps its position and its id, and only the
   * quantity of an entry with `p`'s id can change.
   */
  function AddedToCart(cart: seq<Product>, p: Product): (r: seq<Product>)
    ensures |r| == if HasId(cart, p.productId) then |cart| else |cart| + 1
    ensures forall j :: 0 <= j < |cart| ==> r[j].productId == cart[j].productId
    ensures forall j :: 0 <= j < |cart| ==> SameExceptQuantity(r[j], cart[j])
    ensures forall j :: 0 <= j < |cart| && cart[j].productId != p.productId ==> r[j] == cart[j]
    ensures !HasId(cart, p.productId) ==> r[|cart|] == NewEntry(p)
    decreases |cart|
  {
    if cart == [] then [NewEntry(p)]
    else if cart[0].productId == p.productId then [Bumped(cart[0])] + cart[1..]
    else
      assert HasId(cart, p.productId) <==> HasId(cart[1..], p.productId) by {
        if HasId(cart, p.productId) {
          var j :| 0 <= j < |cart| && cart[j].productId == p.productId;
          assert cart[1..][j - 1] == cart[j];
        }
        if HasId(cart[1..], p.productId) {
          var j :| 0 <= j < |cart| - 1 && cart[1..][j].productId == p.productId;
          assert cart[j + 1] == cart[1..][j];
        }
      }
      [cart[0]] + AddedToCart(cart[1..], p)
  }

  /** When an entry with `p`'s id exists, exactly the first such entry gains one unit. */
  lemma {:induction false} AddedAtFirstMatch(cart: seq<Product>, p: Product, i: int)
    requires FirstMatch(cart, p.productId, i)
    ensures AddedToCart(cart, p) == cart[i := Bumped(cart[i])]
    decreases |cart|
  {
    if i > 0 {
      assert FirstMatch(cart[1..], p.productId, i - 1) by {
        forall j | 0 <= j < i - 1
          ensures cart[1..][j].productId != p.productId
        {
          assert cart[1..][j] == cart[j + 1];
        }
      }
      AddedAtFirstMatch(cart[1..], p, i - 1);
      assert cart[i := Bumped(cart[i])] == [cart[0]] + cart[1..][i - 1 := Bumped(cart[i])];
    }
  }

  /** When no entry has `p`'s id, the cart grows by one entry at the end and is otherwise unchanged. */
  lemma AddedWhenAbsent(cart: seq<Product>, p: Product)
    requires !HasId(cart, p.productId)
    ensures AddedToCart(cart, p) == cart + [NewEntry(p)]
  {
    var r := AddedToCart(cart, p);
    assert forall j :: 0 <= j < |cart| ==> r[j] == cart[j];
  }

  /** Adding a product never breaks the one-entry-per-id invariant. */
  lemma AddedKeepsUniqueIds(cart: seq<Product>, p: Product)
    requires UniqueIds(cart)
    ensures UniqueIds(AddedToCart(cart, p))
  {
    var r := AddedToCart(cart, p);
    forall i, j | 0 <= i < j < |r|
      ensures r[i].productId != r[j].productId
    {
      if j == |cart| {
        assert r[j].productId == p.productId;
        assert cart[i].productId != p.productId;
      }
    }
  }

  /** Sum of the quantities of the entries with id `id`: the number of units of that product the cart asks for. */
  function UnitsOf(cart: seq<Product>, id: int): int
  {
    if cart == [] then 0
    else (if cart[0].productId == id then cart[0].quantity else 0) + UnitsOf(cart[1..], id)
  }

  /** Adding `p` asks for exactly one more unit of `p` and the same number of units of every other product. */
  lemma {:induction false} AddedUnits(cart: seq<Product>, p: Product, id: int)
    ensures UnitsOf(AddedToCart(cart, p), id) == UnitsOf(cart, id) + (if id == p.productId then 1 else 0)
    decreases |cart|
  {
    var r := AddedToCart(cart, p);
    if cart == [] {
      assert r == [NewEntry(p)];
      assert UnitsOf(r, id) == (if id == p.productId then 1 else 0) + UnitsOf([], id);
    } else if cart[0].productId == p.productId {
      assert r[1..] == cart[1..];
    } else {
      assert r[1..] == AddedToCart(cart[1..], p);
      AddedUnits(cart[1..], p, id);
    }
  }

  /** Adding a product that is not in the cart twice leaves one new entry, at the end, with quantity 2. */
  lemma AddTwiceWhenAbsent(cart: seq<Product>, p: Product)
    requires !HasId(cart, p.productId)
    ensures AddedToCart(AddedToCart(cart, p), p) == cart + [p.(quantity := 2)]
  {
    AddedWhenAbsent(cart, p);
    var once := cart + [NewEntry(p)];
    assert FirstMatch(once, p.productId, |cart|) by {
      forall j | 0 <= j < |cart|
        ensures once[j].productId != p.productId
      {
        assert once[j] == cart[j];
      }
    }
    AddedAtFirstMatch(once, p, |cart|);
    assert Bumped(NewEntry(p)) == p.(quantity := 2);
    assert once[|cart| := p.(quantity := 2)] == cart + [p.(quantity := 2)];
  }

  /** Adding two different products that are not in the cart appends one entry for each, in the order added. */
  lemma AddTwoDistinctWhenAbsent(cart: seq<Product>, p1: Product, p2: Product)
    requires p1.productId != p2.productId
    requires !HasId(cart, p1.productId) && !HasId(cart, p2.productId)
    ensures AddedToCart(AddedToCart(cart, p1), p2) == cart + [NewEntry(p1), NewEntry(p2)]
  {
    AddedWhenAbsent(cart, p1);
    var once := cart + [NewEntry(p1)];
    assert !HasId(once, p2.productId) by {
      forall j | 0 <= j < |once|
        ensures once[j].productId != p2.productId
      {
        if j < |cart| { assert once[j] == cart[j]; }
      }
    }
    AddedWhenAbsent(once, p2);
  }

  /** Front-to-back search for the first entry with id `id`. */
  method Find(cart: seq<Product>, id: int) returns (k: Option<nat>)
    ensures k.None? <==> !HasId(cart, id)
    ensures k.Some? ==> FirstMatch(cart, id, k.value)
  {
    var i := 0;
    while i < |cart|
      invariant 0 <= i <= |cart|
      invariant forall j :: 0 <= j < i ==> cart[j].productId != id
    {
      if cart[i].productId == id {
        return Some(i);
      }
      i := i + 1;
    }
    return None;
  }

  /** The browser-storage slot that holds the cart, already decoded. */
  class CartStore {
    /** The stored cart; `None` while nothing has been stored under the key. */
    var slot: Option<seq<Product>>

    /** Storage before the first add: the key is unset. */
    constructor ()
      ensures slot == None && Items() == []
    {
      slot := None;
    }

    /** The cart as read back from the slot; an unset key reads as the empty cart. */
    function Items(): seq<Product>
      reads this
    {
      if slot.None? then [] else slot.value
    }

    /**
     * Reads the cart, bumps the first entry with `p`'s id or appends a copy of
     * `p` with quantity 1, and writes the whole cart back.
     */
    method AddToCart(p: Product)
      modifies this
      ensures slot == Some(AddedToCart(old(Items()), p))
      ensures UniqueIds(old(Items())) ==> UniqueIds(Items())
      ensures UnitsOf(Items(), p.productId) == UnitsOf(old(Items()), p.productId) + 1
    {
      var cart := Items();
      ghost var before := cart;
      var k := Find(cart, p.productId);
      match k {
        case Some(i) =>
          AddedAtFirstMatch(cart, p, i);
          cart := cart[i := Bumped(cart[i])];
        case None =>
          AddedWhenAbsent(cart, p);
          cart := cart + [NewEntry(p)];
      }
      slot := Some(cart);
      if UniqueIds(before) {
        AddedKeepsUniqueIds(before, p);
      }
      AddedUnits(before, p, p.productId);
    }
  }
}
