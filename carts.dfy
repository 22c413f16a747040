/** The carts of src/managers/CartManager.js: creating empty carts, looking them
    up, and adding one unit of a product to a cart, over the ordered list of carts
    kept in one JSON file. */
module Carts {
  import opened Wrappers
  import opened Records

  /** One line of a cart: a product id and how many units of it. */
  datatype Line = Line(product: int, quantity: int)

  /** A stored cart. Product ids are not checked against the catalogue. */
  datatype Cart = Cart(id: int, products: seq<Line>)

  /** The ids of the stored carts, in file order. */
  function CartIds(cs: seq<Cart>): seq<int> {
    seq(|cs|, i requires 0 <= i < |cs| => cs[i].id)
  }

  /** The product ids of a cart's lines, in order. */
  function LineProducts(lines: seq<Line>): seq<int> {
    seq(|lines|, i requires 0 <= i < |lines| => lines[i].product)
  }

  /** At most one line per product id. */
  ghost predicate UniqueProducts(lines: seq<Line>) {
    forall i, j :: 0 <= i < j < |lines| ==> lines[i].product != lines[j].product
  }

  /** Every line holds at least one unit. */
  ghost predicate PositiveQuantities(lines: seq<Line>) {
    forall i :: 0 <= i < |lines| ==> lines[i].quantity >= 1
  }

  /** The invariant the cart manager keeps: ids grow along the file, and every
      cart has at most one line per product, each with a positive quantity. */
  ghost predicate Valid(cs: seq<Cart>) {
    && Increasing(CartIds(cs))
    && forall i :: 0 <= i < |cs| ==> UniqueProducts(cs[i].products) && PositiveQuantities(cs[i].products)
  }

  /** The number of units of product `pid` a list of lines holds, over all its
      lines: the cart seen as a bag of products. */
  function Units(lines: seq<Line>, pid: int): int {
    if lines == [] then 0
    else (if lines[0].product == pid then lines[0].quantity else 0) + Units(lines[1..], pid)
  }

  /** `find(c => c.id === id)`: the first cart with that id. */
  function FindCart(cs: seq<Cart>, id: int): (r: Option<Cart>)
    ensures r.None? <==> id !in CartIds(cs)
    ensures r.Some? ==> r.value.id == id && r.value in cs
    ensures r.Some? ==>
      exists i :: 0 <= i < |cs| && cs[i] == r.value && id !in CartIds(cs)[..i]
  {
    var i := IndexOf(CartIds(cs), id);
    if i == -1 then None else Some(cs[i])
  }

  /** The lines of a cart after one unit of `pid` is added: the first line for
      `pid` gains one unit, or a line `{product: pid, quantity: 1}` is appended. */
  function AddLine(lines: seq<Line>, pid: int): (r: seq<Line>)
    ensures pid in LineProducts(lines) ==> |r| == |lines|
    ensures pid !in LineProducts(lines) ==> r == lines + [Line(pid, 1)]
    ensures pid in LineProducts(lines) ==>
      var i := IndexOf(LineProducts(lines), pid);
      && r[i] == Line(pid, lines[i].quantity + 1)
      && forall j :: 0 <= j < |lines| && j != i ==> r[j] == lines[j]
    ensures LineProducts(r) == LineProducts(lines) ||
            LineProducts(r) == LineProducts(lines) + [pid]
  {
    var i := IndexOf(LineProducts(lines), pid);
    if i == -1 then lines + [Line(pid, 1)]
    else lines[i := lines[i].(quantity := lines[i].quantity + 1)]
  }

  /** The units of a list of lines after one line is replaced. */
  lemma {:induction false} UnitsUpdate(lines: seq<Line>, i: nat, l: Line, pid: int)
    requires i < |lines|
    ensures Units(lines[i := l], pid) ==
            Units(lines, pid)
            - (if lines[i].product == pid then lines[i].quantity else 0)
            + (if l.product == pid then l.quantity else 0)
  {
    if i > 0 {
      assert lines[i := l][1..] == lines[1..][i - 1 := l];
      UnitsUpdate(lines[1..], i - 1, l, pid);
    } else {
      assert lines[i := l][1..] == lines[1..];
    }
  }

  /** The units of a list of lines after one line is appended. */
  lemma {:induction false} UnitsAppend(lines: seq<Line>, l: Line, pid: int)
    ensures Units(lines + [l], pid) == Units(lines, pid) + (if l.product == pid then l.quantity else 0)
  {
    if lines != [] {
      assert (lines + [l])[1..] == lines[1..] + [l];
      UnitsAppend(lines[1..], l, pid);
    }
  }

  /** Adding a product to a cart adds exactly one unit of that product and
      leaves the units of every other product as they were. */
  lemma AddLineUnits(lines: seq<Line>, pid: int, q: int)
    ensures Units(AddLine(lines, pid), q) == Units(lines, q) + (if q == pid then 1 else 0)
  {
    var i := IndexOf(LineProducts(lines), pid);
    if i == -1 {
      UnitsAppend(lines, Line(pid, 1), q);
    } else {
      UnitsUpdate(lines, i, lines[i].(quantity := lines[i].quantity + 1), q);
    }
  }

  /** Adding a product keeps at most one line per product and positive quantities. */
  lemma AddLineKeepsLines(lines: seq<Line>, pid: int)
    requires UniqueProducts(lines) && PositiveQuantities(lines)
    ensures UniqueProducts(AddLine(lines, pid)) && PositiveQuantities(AddLine(lines, pid))
  {
    var r := AddLine(lines, pid);
    if pid !in LineProducts(lines) {
      forall j | 0 <= j < |lines| ensures r[j].product != pid {
        assert LineProducts(lines)[j] == lines[j].product;
      }
    }
  }

  /** Adding the same product twice to a cart without it yields one line with
      two units, not two lines. */
  lemma AddTwiceMergesLines(lines: seq<Line>, pid: int)
    requires pid !in LineProducts(lines)
    ensures
      var r := AddLine(AddLine(lines, pid), pid);
      && |r| == |lines| + 1
      && r[|lines|] == Line(pid, 2)
      && r[..|lines|] == lines
  {
    var once := AddLine(lines, pid);
    assert LineProducts(once) == LineProducts(lines) + [pid];
    assert IndexOf(LineProducts(once), pid) == |lines|;
  }

  /** Creating a cart keeps the invariant. */
  lemma CreateKeepsValid(cs: seq<Cart>)
    requires Valid(cs)
    ensures Valid(cs + [Cart(NextId(CartIds(cs)), [])])
  {
    assert CartIds(cs + [Cart(NextId(CartIds(cs)), [])]) == CartIds(cs) + [NextId(CartIds(cs))];
  }

  /** Adding a product to the cart at position `i` keeps the invariant. */
  lemma AddToCartKeepsValid(cs: seq<Cart>, i: nat, pid: int)
    requires Valid(cs) && i < |cs|
    ensures Valid(cs[i := cs[i].(products := AddLine(cs[i].products, pid))])
  {
    AddLineKeepsLines(cs[i].products, pid);
    assert CartIds(cs[i := cs[i].(products := AddLine(cs[i].products, pid))]) == CartIds(cs);
  }

  /** The stored carts. */
  class CartManager {
    /** The JSON file: `None` when it is absent or does not parse. */
    var file: Option<seq<Cart>>
    /** How many times the file has been overwritten. */
    ghost var writes: nat

    /** The manager over a file that currently holds `initial`. */
    constructor (initial: Option<seq<Cart>>)
      ensures file == initial && writes == 0
    {
      file := initial;
      writes := 0;
    }

    /** What a read of the file yields: its carts, or none when it is absent or
        unreadable. */
    function Contents(): seq<Cart>
      reads this
    {
      file.GetOr([])
    }

    /** `getCarts`. */
    method GetCarts() returns (cs: seq<Cart>)
      ensures cs == Contents()
      ensures file.None? ==> cs == []
    {
      cs := file.GetOr([]);
    }

    /** `saveCarts`: overwrite the file with `carts`. */
    method SaveCarts(carts: seq<Cart>)
      modifies this
      ensures file == Some(carts) && writes == old(writes) + 1
    {
      file := Some(carts);
      writes := writes + 1;
    }

    /** `createCart`: append an empty cart numbered after the last one, save,
        and return it. */
    method CreateCart() returns (c: Cart)
      modifies this
      ensures c == Cart(NextId(CartIds(old(Contents()))), [])
      ensures file == Some(old(Contents()) + [c]) && writes == old(writes) + 1
      ensures Valid(old(Contents())) ==> c.id !in CartIds(old(Contents())) && Valid(Contents())
    {
      var carts := GetCarts();
      var newCart := Cart(NextId(CartIds(carts)), []);
      carts := carts + [newCart];
      SaveCarts(carts);
      c := newCart;
      if Valid(old(Contents())) {
        CreateKeepsValid(old(Contents()));
      }
    }

    /** `getCartById`: the first stored cart with that id; never writes. */
    method GetCartById(id: int) returns (r: Option<Cart>)
      ensures r == FindCart(Contents(), id)
      ensures r.None? <==> id !in CartIds(Contents())
    {
      var carts := GetCarts();
      r := FindCart(carts, id);
    }

    /** `addProductToCart`: add one unit of `pid` to the first cart with id
        `cid`, save every cart, and return the updated cart; `None` with no write
        when no cart has that id. */
    method AddProductToCart(cid: int, pid: int) returns (r: Option<Cart>)
      modifies this
      ensures r.None? <==> cid !in CartIds(old(Contents()))
      ensures r.None? ==> file == old(file) && writes == old(writes)
      ensures r.Some? ==>
        var i := IndexOf(CartIds(old(Contents())), cid);
        && 0 <= i < |old(Contents())|
        && r.value == Cart(cid, AddLine(old(Contents())[i].products, pid))
        && file == Some(old(Contents())[i := r.value])
        && writes == old(writes) + 1
      ensures Valid(old(Contents())) ==> Valid(Contents())
    {
      var carts := GetCarts();
      var ci := IndexOf(CartIds(carts), cid);
      if ci == -1 {
        return None;
      }
      var cart := carts[ci];
      var lines := cart.products;
      var li := IndexOf(LineProducts(lines), pid);
      if li != -1 {
        lines := lines[li := lines[li].(quantity := lines[li].quantity + 1)];
      } else {
        lines := lines + [Line(pid, 1)];
      }
      cart := cart.(products := lines);
      carts := carts[ci := cart];
      SaveCarts(carts);
      r := Some(cart);
      if Valid(old(Contents())) {
        AddToCartKeepsValid(old(Contents()), ci, pid);
      }
    }
  }
}
