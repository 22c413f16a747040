# File-backed product and cart managers

This project models the two data managers of a small e-commerce backend. Each
manager keeps an ordered list of records in one JSON file, and every operation
works the same way: read the whole list, compute the new list, and overwrite the
whole file.

- `ProductManager` (src/managers/ProductManager.js) owns the product catalogue.
  It validates a new product's required attributes. A falsy value counts as
  missing, so a price or stock of `0` is refused. It refuses a code that is
  already stored, numbers the new product, fills in defaults and appends it.
  Update merges a partial body onto the first product with the id and keeps that
  id. Delete filters the id out.
- `CartManager` (src/managers/CartManager.js) owns the carts. It creates empty
  carts, looks them up, and adds one unit of a product to a cart. The unit goes
  onto the cart's existing line for that product, or onto a new line at the end.

Modules:

- `Wrappers` holds `Option` and `Result`.
- `Records` holds what both managers share. `IndexOf` is the first-match search
  behind `find`/`findIndex`. `NextId` is the id rule: the last record's id plus
  one, or 1 for an empty list. `Increasing` says that ids grow along the file.
- `Products` holds the product datatypes and the pure rules: `NewProduct`,
  `FindById`, `Merge`, `WithoutId`. It also holds their lemmas and the class
  `ProductManager`.
- `Carts` holds the cart datatypes, `FindCart` and `AddLine`, the `Units` view
  of a cart as a bag of products, the lemmas, and the class `CartManager`.
- `Scenarios` holds client sessions that drive both classes through their
  contracts alone.

Each class has a field `file: Option<seq<…>>`. `None` stands for a file that is
absent or does not parse, and a read of it yields the empty list. A ghost
counter `writes` counts how often the file is overwritten. With it, the
contracts state outright that a refused request writes nothing.

JavaScript falsiness is written out:

- A text is falsy when it is absent or `""`.
- A number is falsy when it is absent or `0`.
- The `thumbnails` array is falsy only when absent.

Two consequences of the code are worth knowing:

- New ids are the last record's id plus one (ProductManager.js:69,
  CartManager.js:50). Whenever ids increase along the file, that is a fresh id,
  the largest id plus one (`Records.NextId`); when they do not, it can collide
  with a stored id (`Records.NextIdCollidesWhenUnordered`). While ids increase,
  the next id after the last product is deleted is the one the list without it
  would give. So, while ids increase, the deleted id comes back exactly when the
  product before it had the id one less, or when it was the only product and had
  id 1 (`Products.NextAfterDeletingLast`).
- `updateProduct` does not re-check codes, so it can give two products the same
  code (`Products.UpdateCanDuplicateCode`). Only the half of the invariant about
  increasing ids is kept by every operation.

## Model

| member | source | states |
|---|---|---|
| `Records.IndexOf` | src/managers/ProductManager.js:104-106 | returns -1 exactly when no record has the key; otherwise the position of a record with the key and no earlier one |
| `Records.NextId` | src/managers/ProductManager.js:69 | when ids increase along the list, the new id is fresh, is one more than the largest id, and keeps the ids increasing |
| `Records.NextIdCollidesWhenUnordered` | src/managers/CartManager.js:50 | when the file's ids do not increase, the last-plus-one rule can hand out an id that is already stored (the list [2, 1] gets 2) |
| `Products.NewProduct` | src/managers/ProductManager.js:49-81 | "missing fields" iff some required attribute is falsy (0 included); "duplicate code" iff the attributes are present and the code is stored; on success the product has a fresh code, every required attribute truthy, id last+1, the input's attributes, status true, the category or "sin categoría", the thumbnails or [] |
| `Products.FindById` | src/managers/ProductManager.js:36-42 | absent iff no product has the id; otherwise a stored product with that id, the first one in file order |
| `Products.Merge` | src/managers/ProductManager.js:112 | the merged product keeps the stored id whatever the fields carry |
| `Products.WithoutId` | src/managers/ProductManager.js:129-132 | every kept product is stored and has another id; every stored product with another id is kept; the length is unchanged iff no product had the id, and then the list is unchanged |
| `Products.UpdateKeepsIds` | src/managers/ProductManager.js:104-112 | replacing a product by its merge leaves the list of ids unchanged |
| `Products.WithoutIdAppend` | src/managers/ProductManager.js:129 | filtering distributes over concatenation, so the kept products stay in their relative order |
| `Products.WithoutIdRemovesOne` | src/managers/ProductManager.js:126-138 | with increasing ids, deleting a stored id shrinks the list by exactly one |
| `Products.WithoutIdKeepsIncreasing` | src/managers/ProductManager.js:126-138 | deleting keeps ids increasing |
| `Products.WithoutIdKeepsValid` | src/managers/ProductManager.js:126-138 | deleting keeps ids increasing and codes unique |
| `Products.AddKeepsValid` | src/managers/ProductManager.js:62-84 | appending the validated product keeps ids increasing and codes unique |
| `Products.AddedIsFound` | src/managers/ProductManager.js:67-92 | with increasing ids, the product just added is what a lookup of its id returns |
| `Products.UpdateCanDuplicateCode` | src/managers/ProductManager.js:101-118 | for any list, an update whose fields carry another product's code leaves two products with the same code |
| `Products.NextAfterDeletingLast` | src/managers/ProductManager.js:69 | with increasing ids, after the last product is deleted the next id is the one the list without it gives; it equals the deleted id exactly when the product before had the id one less (or the deleted one was alone with id 1) |
| `Products.ProductManager.constructor` | src/managers/ProductManager.js:10-13 | the manager starts over the file's current state with no writes |
| `Products.ProductManager.GetProducts` | src/managers/ProductManager.js:19-29 | returns the stored products, or [] when the file is absent or unreadable |
| `Products.ProductManager.GetProductById` | src/managers/ProductManager.js:36-42 | returns the first stored product with the id, absent iff none has it; writes nothing |
| `Products.ProductManager.AddProduct` | src/managers/ProductManager.js:49-93 | on error the file is untouched and not written; on success the file is the old list plus exactly the returned product at the end, written once; increasing ids and the whole invariant are each kept |
| `Products.ProductManager.UpdateProduct` | src/managers/ProductManager.js:101-119 | absent with no write iff no product has the id; otherwise only the first product with the id becomes its merge, the length, the ids and all other products stay, the file is written once, and the returned product is the stored one with the requested id |
| `Products.ProductManager.DeleteProduct` | src/managers/ProductManager.js:126-139 | false with no write iff no product has the id; otherwise the file holds the filtered list, written once; afterwards the id is not found; increasing ids and the whole invariant are each kept; and with increasing ids exactly one product is gone |
| `Carts.FindCart` | src/managers/CartManager.js:70-75 | absent iff no cart has the id; otherwise a stored cart with that id, the first one in file order |
| `Carts.AddLine` | src/managers/CartManager.js:93-103 | if the product has a line, the length stays, the first such line gains exactly one unit and every other line stays; if not, `{product, quantity: 1}` is appended |
| `Carts.AddLineUnits` | src/managers/CartManager.js:93-103 | adding a product adds exactly one unit of it and leaves every other product's units unchanged |
| `Carts.AddLineKeepsLines` | src/managers/CartManager.js:94-103 | at most one line per product and positive quantities are kept |
| `Carts.AddTwiceMergesLines` | src/managers/CartManager.js:94-103 | adding an absent product twice gives one new line with quantity 2 after the old lines |
| `Carts.CreateKeepsValid` | src/managers/CartManager.js:48-56 | appending the new empty cart keeps the cart invariant |
| `Carts.AddToCartKeepsValid` | src/managers/CartManager.js:86-106 | updating one cart's lines keeps the cart invariant |
| `Carts.CartManager.constructor` | src/managers/CartManager.js:9-12 | the manager starts over the file's current state with no writes |
| `Carts.CartManager.GetCarts` | src/managers/CartManager.js:18-28 | returns the stored carts, or [] when the file is absent or unreadable |
| `Carts.CartManager.SaveCarts` | src/managers/CartManager.js:34-37 | the file holds exactly the given carts, written once |
| `Carts.CartManager.CreateCart` | src/managers/CartManager.js:43-63 | the returned cart has id last+1 (or 1) and no lines, and is appended once at the end with the other carts unchanged; with a valid file its id is fresh and the invariant is kept |
| `Carts.CartManager.GetCartById` | src/managers/CartManager.js:70-75 | returns the first stored cart with the id, absent iff none has it; writes nothing |
| `Carts.CartManager.AddProductToCart` | src/managers/CartManager.js:84-110 | absent with no write iff no cart has the id; otherwise only the first cart with the id gets its lines updated by one unit of the product, the number, order and other carts stay, the file is written once, and the returned cart is the stored one; the invariant is kept |

## Left out

- The real-time broadcast in server.js, the Express routers (HTTP status codes and the views), src/app.js and the browser script. They are framework and networking glue around the managers, and they are not part of this model.
- File I/O and JSON: `fs.readFile`/`fs.writeFile` and `JSON.parse`/`JSON.stringify` become the `file` field. A failed read is the `None` state. A failing write, which would throw, is not modelled.
- Concurrency: the lost update when two read-modify-write sequences interleave is not modelled. Every operation is one atomic step.
- Numbers are unbounded integers. Floating-point prices, `NaN` ids from `Number(...)` on a bad URL parameter, and values of the wrong JSON type are not modelled.
- Keys of an update body that are not product attributes would add new attributes to the stored record. The model has only the product's own attributes.
- The cart and line objects that the source changes in place (`quantity += 1`, `push`) are modelled as updates of immutable values at the cart's and line's positions. This loses nothing, because every read parses fresh objects that nothing else shares.
- `Products.Merge`: its contract states only that the stored id survives. The overlay of each present attribute onto the old one is the function's definition.
