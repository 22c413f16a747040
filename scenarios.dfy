/** Clients of the two managers: sequences of calls whose outcomes follow from
    the managers' contracts alone. */
module Scenarios {
  import opened Wrappers
  import opened Records
  import opened Products
  import opened Carts

  /** A catalogue that starts without a file: id 1, then a duplicate code and a
      zero stock refused without a write, then id 2. */
  method AddSession() {
    var m := new ProductManager(None);
    var req := ProductInput(Some("A"), Some("d"), Some(10), Some("t"), Some("c1"), Some(5), None, None);

    var r1 := m.AddProduct(req);
    assert r1.Ok? && r1.value.id == 1 && r1.value.category == DefaultCategory;
    var p1 := r1.value;

    var dup := m.AddProduct(req.(title := Some("B")));
    assert CodeTaken([p1], "c1");
    assert dup == Err(DuplicateCode) && m.Contents() == [p1] && m.writes == 1;
    assert dup.error.Message() == "Ya existe un producto con ese código";

    var zero := m.AddProduct(req.(code := Some("c9"), stock := Some(0)));
    assert zero == Err(MissingFields) && m.writes == 1;

    assert "c1" != "c2" by { assert "c1"[1] != "c2"[1]; }
    assert !CodeTaken([p1], "c2");
    assert ProductIds([p1]) == [1];
    var r2 := m.AddProduct(req.(code := Some("c2")));
    assert r2.Ok? && r2.value.id == 2;
  }

  /** Products 1 and 2 stored: deleting 1 writes once, deleting it again writes
      nothing, and the next product gets id 3. */
  method DeleteSession() {
    var p1 := Product(1, "A", "d", 10, "t", "c1", 5, true, DefaultCategory, []);
    var p2 := Product(2, "A", "d", 10, "t", "c2", 5, true, DefaultCategory, []);
    var m := new ProductManager(Some([p1, p2]));

    var gone := m.DeleteProduct(1);
    assert ProductIds([p1, p2]) == [1, 2];
    assert WithoutId([p1, p2], 1) == [p2];
    assert gone && m.Contents() == [p2] && m.writes == 1;

    var again := m.DeleteProduct(1);
    assert ProductIds([p2]) == [2];
    assert !again && m.writes == 1;

    assert "c2" != "c3" by { assert "c2"[1] != "c3"[1]; }
    assert !CodeTaken([p2], "c3");
    var r3 := m.AddProduct(ProductInput(Some("C"), Some("d"), Some(1), Some("t"), Some("c3"), Some(1), None, None));
    assert r3.Ok? && r3.value.id == 3;
  }

  /** An update that carries another id keeps the stored one; an unknown id
      writes nothing. */
  method UpdateSession() {
    var p3 := Product(3, "A", "d", 10, "t", "c3", 5, true, DefaultCategory, []);
    var m := new ProductManager(Some([p3]));
    var none := ProductFields(None, None, None, None, None, None, None, None, None, None);

    var u := m.UpdateProduct(3, none.(id := Some(7), price := Some(99)));
    assert ProductIds([p3]) == [3];
    assert u.Some? && u.value.id == 3 && u.value.price == 99 && u.value.code == "c3";

    var missing := m.UpdateProduct(7, none);
    assert missing.None? && m.writes == 1;
  }

  /** A cart file that starts absent: cart 1, product 42 added twice to it, and
      cart 99 refused without a write. */
  method CartSession() {
    var m := new CartManager(None);
    var c := m.CreateCart();
    assert c == Cart(1, []) && m.Contents() == [c];

    assert CartIds([c]) == [1];
    assert AddLine([], 42) == [Line(42, 1)];
    var once := m.AddProductToCart(1, 42);
    assert once == Some(Cart(1, [Line(42, 1)])) && m.Contents() == [Cart(1, [Line(42, 1)])];

    assert CartIds([Cart(1, [Line(42, 1)])]) == [1];
    assert LineProducts([Line(42, 1)]) == [42];
    assert AddLine([Line(42, 1)], 42) == [Line(42, 2)];
    var twice := m.AddProductToCart(1, 42);
    assert twice == Some(Cart(1, [Line(42, 2)]));

    var unknown := m.AddProductToCart(99, 42);
    assert unknown.None? && m.writes == 3;
    var found := m.GetCartById(1);
    assert found == Some(Cart(1, [Line(42, 2)]));
  }
}
