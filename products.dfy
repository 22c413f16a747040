/** The product catalogue of src/managers/ProductManager.js: validation of new
    products, id assignment, defaults, merge-on-update and delete-by-filter over
    the ordered list of products kept in one JSON file. */
module Products {
  import opened Wrappers
  import opened Records

  /** Category given to a product created without a (truthy) category. */
  const DefaultCategory: string := "sin categoría"

  /** A stored product. `price` and `stock` are JSON numbers, modelled as integers. */
  datatype Product = Product(
    id: int,
    title: string,
    description: string,
    price: int,
    thumbnail: string,
    code: string,
    stock: int,
    status: bool,
    category: string,
    thumbnails: seq<string>)

  /** The body of a create request. `None` is a key the request leaves out;
      keys the manager never reads (such as `id` or `status`) are not modelled. */
  datatype ProductInput = ProductInput(
    title: Option<string>,
    description: Option<string>,
    price: Option<int>,
    thumbnail: Option<string>,
    code: Option<string>,
    stock: Option<int>,
    category: Option<string>,
    thumbnails: Option<seq<string>>)

  /** The partial body of an update request: one optional value per attribute,
      `id` included (the manager ignores it). */
  datatype ProductFields = ProductFields(
    id: Option<int>,
    title: Option<string>,
    description: Option<string>,
    price: Option<int>,
    thumbnail: Option<string>,
    code: Option<string>,
    stock: Option<int>,
    status: Option<bool>,
    category: Option<string>,
    thumbnails: Option<seq<string>>)

  /** The two errors `addProduct` throws. */
  datatype AddError = MissingFields | DuplicateCode {
    /** The message the thrown Error carries. */
    function Message(): string {
      match this
      case MissingFields => "Faltan campos obligatorios"
      case DuplicateCode => "Ya existe un producto con ese código"
    }
  }

  /** JavaScript falsiness of an optional text: absent or empty. */
  predicate FalsyText(s: Option<string>) {
    s.None? || s.value == ""
  }

  /** JavaScript falsiness of an optional number: absent or zero. */
  predicate FalsyNumber(n: Option<int>) {
    n.None? || n.value == 0
  }

  /** Some required attribute of the request is falsy. Zero counts as missing,
      so a price or a stock of 0 is refused. */
  predicate MissingRequired(input: ProductInput) {
    || FalsyText(input.title)
    || FalsyText(input.description)
    || FalsyNumber(input.price)
    || FalsyText(input.thumbnail)
    || FalsyText(input.code)
    || FalsyNumber(input.stock)
  }

  /** Every attribute `addProduct` requires is truthy in `p`. */
  predicate Complete(p: Product) {
    p.title != "" && p.description != "" && p.price != 0 &&
    p.thumbnail != "" && p.code != "" && p.stock != 0
  }

  /** Some stored product already has this code (`some(p => p.code === code)`). */
  predicate CodeTaken(ps: seq<Product>, code: string) {
    exists i :: 0 <= i < |ps| && ps[i].code == code
  }

  /** No two stored products share a code. */
  ghost predicate UniqueCodes(ps: seq<Product>) {
    forall i, j :: 0 <= i < j < |ps| ==> ps[i].code != ps[j].code
  }

  /** The ids of the stored products, in file order. */
  function ProductIds(ps: seq<Product>): seq<int> {
    seq(|ps|, i requires 0 <= i < |ps| => ps[i].id)
  }

  /** The catalogue invariant the managers keep: ids grow along the file and
      codes are unique. */
  ghost predicate Valid(ps: seq<Product>) {
    Increasing(ProductIds(ps)) && UniqueCodes(ps)
  }

  /** What `addProduct` decides for a request against the stored list `ps`:
      the product it appends, or the error it throws. */
  function NewProduct(ps: seq<Product>, input: ProductInput): (r: Result<Product, AddError>)
    ensures r == Err(MissingFields) <==> MissingRequired(input)
    ensures r == Err(DuplicateCode) <==> !MissingRequired(input) && CodeTaken(ps, input.code.value)
    ensures r.Ok? ==> Complete(r.value) && !CodeTaken(ps, r.value.code)
    ensures r.Ok? ==> r.value.id == NextId(ProductIds(ps))
    ensures r.Ok? ==>
      && r.value.title == input.title.value && r.value.description == input.description.value
      && r.value.price == input.price.value && r.value.thumbnail == input.thumbnail.value
      && r.value.code == input.code.value && r.value.stock == input.stock.value
    ensures r.Ok? ==>
      && r.value.status
      && r.value.category == (if FalsyText(input.category) then DefaultCategory else input.category.value)
      && r.value.thumbnails == input.thumbnails.GetOr([])
  {
    if MissingRequired(input) then Err(MissingFields)
    else if CodeTaken(ps, input.code.value) then Err(DuplicateCode)
    else
      Ok(Product(
        NextId(ProductIds(ps)),
        input.title.value,
        input.description.value,
        input.price.value,
        input.thumbnail.value,
        input.code.value,
        input.stock.value,
        true,
        if FalsyText(input.category) then DefaultCategory else input.category.value,
        input.thumbnails.GetOr([])))
  }

  /** `find(p => p.id === id) || null`: the first product with that id. */
  function FindById(ps: seq<Product>, id: int): (r: Option<Product>)
    ensures r.None? <==> id !in ProductIds(ps)
    ensures r.Some? ==> r.value.id == id && r.value in ps
    ensures r.Some? ==>
      exists i :: 0 <= i < |ps| && ps[i] == r.value && id !in ProductIds(ps)[..i]
  {
    var i := IndexOf(ProductIds(ps), id);
    if i == -1 then None else Some(ps[i])
  }

  /** `{ ...p, ...f, id }`: the attributes present in `f` replace those of `p`,
      and the stored id is put back last, whatever `f.id` says. */
  function Merge(p: Product, f: ProductFields): (r: Product)
    ensures r.id == p.id
  {
    Product(
      p.id,
      f.title.GetOr(p.title),
      f.description.GetOr(p.description),
      f.price.GetOr(p.price),
      f.thumbnail.GetOr(p.thumbnail),
      f.code.GetOr(p.code),
      f.stock.GetOr(p.stock),
      f.status.GetOr(p.status),
      f.category.GetOr(p.category),
      f.thumbnails.GetOr(p.thumbnails))
  }

  /** `filter(p => p.id !== id)`: every product with another id, in order. */
  function WithoutId(ps: seq<Product>, id: int): (r: seq<Product>)
    ensures |r| <= |ps|
    ensures |r| == |ps| <==> id !in ProductIds(ps)
    ensures id !in ProductIds(ps) ==> r == ps
    ensures forall k :: 0 <= k < |r| ==> r[k].id != id && r[k] in ps
    ensures forall p :: p in ps && p.id != id ==> p in r
  {
    if ps == [] then []
    else
      assert ProductIds(ps) == [ps[0].id] + ProductIds(ps[1..]);
      if ps[0].id == id then WithoutId(ps[1..], id)
      else [ps[0]] + WithoutId(ps[1..], id)
  }

  /** The update never moves a record nor changes an id. */
  lemma UpdateKeepsIds(ps: seq<Product>, i: nat, f: ProductFields)
    requires i < |ps|
    ensures ProductIds(ps[i := Merge(ps[i], f)]) == ProductIds(ps)
  {
  }

  /** Filtering distributes over concatenation: the records kept are kept in
      their original relative order. */
  lemma {:induction false} WithoutIdAppend(a: seq<Product>, b: seq<Product>, id: int)
    ensures WithoutId(a + b, id) == WithoutId(a, id) + WithoutId(b, id)
  {
    if a == [] {
      assert a + b == b;
    } else {
      assert (a + b)[1..] == a[1..] + b;
      WithoutIdAppend(a[1..], b, id);
    }
  }

  /** With increasing ids, deleting an existing id removes exactly one record. */
  lemma {:induction false} WithoutIdRemovesOne(ps: seq<Product>, id: int)
    requires Increasing(ProductIds(ps))
    requires id in ProductIds(ps)
    ensures |WithoutId(ps, id)| == |ps| - 1
  {
    var ids := ProductIds(ps);
    assert ids == [ps[0].id] + ProductIds(ps[1..]);
    if ps[0].id == id {
      assert id !in ProductIds(ps[1..]) by {
        forall k | 0 <= k < |ps| - 1 ensures ProductIds(ps[1..])[k] != id {
          assert ids[0] < ids[k + 1];
        }
      }
    } else {
      assert ProductIds(ps[1..]) == ids[1..];
      WithoutIdRemovesOne(ps[1..], id);
    }
  }

  /** Deleting keeps the ids increasing. */
  lemma {:induction false} WithoutIdKeepsIncreasing(ps: seq<Product>, id: int)
    requires Increasing(ProductIds(ps))
    ensures Increasing(ProductIds(WithoutId(ps, id)))
  {
    if ps != [] {
      var ids := ProductIds(ps);
      var rest := ps[1..];
      assert ProductIds(rest) == ids[1..];
      WithoutIdKeepsIncreasing(rest, id);
      var tail := WithoutId(rest, id);
      if ps[0].id != id {
        forall k | 0 <= k < |tail| ensures ps[0].id < tail[k].id {
          var m :| 0 <= m < |rest| && rest[m] == tail[k];
          assert ids[0] < ids[m + 1];
        }
        assert ProductIds([ps[0]] + tail) == [ps[0].id] + ProductIds(tail);
      }
    }
  }

  /** Deleting keeps the catalogue invariant. */
  lemma {:induction false} WithoutIdKeepsValid(ps: seq<Product>, id: int)
    requires Valid(ps)
    ensures Valid(WithoutId(ps, id))
  {
    WithoutIdKeepsIncreasing(ps, id);
    if ps != [] {
      var rest := ps[1..];
      assert ProductIds(rest) == ProductIds(ps)[1..];
      WithoutIdKeepsValid(rest, id);
      var tail := WithoutId(rest, id);
      if ps[0].id != id {
        forall k | 0 <= k < |tail| ensures ps[0].code != tail[k].code {
          var m :| 0 <= m < |rest| && rest[m] == tail[k];
          assert ps[0].code != ps[m + 1].code;
        }
      }
    }
  }

  /** Appending the product `addProduct` builds keeps the catalogue invariant. */
  lemma AddKeepsValid(ps: seq<Product>, input: ProductInput)
    requires Valid(ps)
    requires NewProduct(ps, input).Ok?
    ensures Valid(ps + [NewProduct(ps, input).value])
  {
    var p := NewProduct(ps, input).value;
    assert ProductIds(ps + [p]) == ProductIds(ps) + [p.id];
  }

  /** A product just added is found again by its id. */
  lemma AddedIsFound(ps: seq<Product>, input: ProductInput)
    requires Increasing(ProductIds(ps))
    requires NewProduct(ps, input).Ok?
    ensures FindById(ps + [NewProduct(ps, input).value], NewProduct(ps, input).value.id)
            == Some(NewProduct(ps, input).value)
  {
    var p := NewProduct(ps, input).value;
    assert ProductIds(ps + [p]) == ProductIds(ps) + [p.id];
  }

  /** `updateProduct` does not re-check codes: an update that gives one product
      the code of another leaves two products with that code. */
  lemma UpdateCanDuplicateCode(ps: seq<Product>, i: nat, j: nat, f: ProductFields)
    requires i < |ps| && j < |ps| && i != j
    requires f.code == Some(ps[j].code)
    ensures !UniqueCodes(ps[i := Merge(ps[i], f)])
  {
    var after := ps[i := Merge(ps[i], f)];
    assert after[i].code == after[j].code;
    if j < i {
      assert !(after[j].code != after[i].code);
    } else {
      assert !(after[i].code != after[j].code);
    }
  }

  /** Deleting the last product rolls the next id back to the one the list
      without it would give. So the deleted id comes back exactly when the
      product before it has the id one less, or when it was the only product and
      had id 1. */
  lemma {:induction false} NextAfterDeletingLast(ps: seq<Product>)
    requires Increasing(ProductIds(ps)) && ps != []
    ensures NextId(ProductIds(WithoutId(ps, ps[|ps| - 1].id))) == NextId(ProductIds(ps[..|ps| - 1]))
    ensures
      var last := ps[|ps| - 1].id;
      NextId(ProductIds(WithoutId(ps, last))) == last <==>
        if |ps| == 1 then last == 1 else ps[|ps| - 2].id == last - 1
  {
    var n := |ps|;
    var init, last := ps[..n - 1], ps[n - 1];
    assert ps == init + [last];
    WithoutIdAppend(init, [last], last.id);
    assert ProductIds(init) == ProductIds(ps)[..n - 1];
    assert last.id !in ProductIds(init) by {
      forall k | 0 <= k < n - 1 ensures ProductIds(init)[k] != last.id {
        assert ProductIds(ps)[k] < ProductIds(ps)[n - 1];
      }
    }
    assert WithoutId([last], last.id) == [];
    assert WithoutId(ps, last.id) == init;
  }

  /** The stored products and the ids given out. */
  class ProductManager {
    /** The JSON file: `None` when it is absent or does not parse. */
    var file: Option<seq<Product>>
    /** How many times the file has been overwritten. */
    ghost var writes: nat

    /** The manager over a file that currently holds `initial`. */
    constructor (initial: Option<seq<Product>>)
      ensures file == initial && writes == 0
    {
      file := initial;
      writes := 0;
    }

    /** What a read of the file yields: its products, or none when it is
        absent or unreadable. */
    function Contents(): seq<Product>
      reads this
    {
      file.GetOr([])
    }

    /** `getProducts`. */
    method GetProducts() returns (ps: seq<Product>)
      ensures ps == Contents()
      ensures file.None? ==> ps == []
    {
      ps := file.GetOr([]);
    }

    /** `getProductById`: the first stored product with that id; never writes. */
    method GetProductById(id: int) returns (r: Option<Product>)
      ensures r == FindById(Contents(), id)
      ensures r.None? <==> id !in ProductIds(Contents())
    {
      var productos := GetProducts();
      r := FindById(productos, id);
    }

    /** `addProduct`: validate and number the request against the stored list,
        append the new product, overwrite the file and return the product. */
    method AddProduct(input: ProductInput) returns (r: Result<Product, AddError>)
      modifies this
      ensures r == NewProduct(old(Contents()), input)
      ensures r.Err? ==> file == old(file) && writes == old(writes)
      ensures r.Ok? ==> file == Some(old(Contents()) + [r.value]) && writes == old(writes) + 1
      ensures Increasing(ProductIds(old(Contents()))) ==> Increasing(ProductIds(Contents()))
      ensures Valid(old(Contents())) ==> Valid(Contents())
    {
      var productos := GetProducts();
      r := NewProduct(productos, input);
      if r.Err? {
        return;
      }
      var newProduct := r.value;
      productos := productos + [newProduct];
      file := Some(productos);
      writes := writes + 1;
      assert ProductIds(productos) == ProductIds(old(Contents())) + [newProduct.id];
      if Valid(old(Contents())) {
        AddKeepsValid(old(Contents()), input);
      }
    }

    /** `updateProduct`: merge `fields` onto the first product with that id,
        keeping its id, and overwrite the file; `None` with no write when no
        product has that id. */
    method UpdateProduct(id: int, fields: ProductFields) returns (r: Option<Product>)
      modifies this
      ensures r.None? <==> id !in ProductIds(old(Contents()))
      ensures r.None? ==> file == old(file) && writes == old(writes)
      ensures r.Some? ==>
        var i := IndexOf(ProductIds(old(Contents())), id);
        && 0 <= i < |old(Contents())|
        && r.value == Merge(old(Contents())[i], fields)
        && file == Some(old(Contents())[i := r.value])
        && writes == old(writes) + 1
      ensures r.Some? ==> r.value.id == id && FindById(Contents(), id) == r
      ensures ProductIds(Contents()) == ProductIds(old(Contents()))
    {
      var productos := GetProducts();
      var index := IndexOf(ProductIds(productos), id);
      if index == -1 {
        return None;
      }
      UpdateKeepsIds(productos, index, fields);
      productos := productos[index := Merge(productos[index], fields)];
      file := Some(productos);
      writes := writes + 1;
      r := Some(productos[index]);
    }

    /** `deleteProduct`: keep every product with another id and overwrite the
        file, or answer false with no write when none had that id. */
    method DeleteProduct(id: int) returns (ok: bool)
      modifies this
      ensures ok <==> id in ProductIds(old(Contents()))
      ensures !ok ==> file == old(file) && writes == old(writes)
      ensures ok ==> file == Some(WithoutId(old(Contents()), id)) && writes == old(writes) + 1
      ensures FindById(Contents(), id) == None
      ensures Increasing(ProductIds(old(Contents()))) ==> Increasing(ProductIds(Contents()))
      ensures Valid(old(Contents())) ==> Valid(Contents())
      ensures ok && Increasing(ProductIds(old(Contents()))) ==> |Contents()| == |old(Contents())| - 1
    {
      var productos := GetProducts();
      var newList := WithoutId(productos, id);
      if |newList| == |productos| {
        return false;
      }
      file := Some(newList);
      writes := writes + 1;
      ok := true;
      if Increasing(ProductIds(productos)) {
        WithoutIdKeepsIncreasing(productos, id);
        WithoutIdRemovesOne(productos, id);
      }
      if Valid(productos) {
        WithoutIdKeepsValid(productos, id);
      }
    }
  }
}
