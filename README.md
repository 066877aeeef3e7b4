# In-memory product store

This is a Dafny model of the product API of a small Express/TypeScript service. The service keeps a
process-wide, ordered collection of products (`products`) and an id counter (`nextId`). It starts
with three seed records (Laptop, Keyboard, Mouse, with ids 1 to 3) and `nextId = 4`. Five
handlers (list, get by id, create, update and delete) each run to completion over that state. Each
handler answers with a status code and an envelope `{ success, message, data }`.

Files:

- `wrappers.dfy`: module `Wrappers`. `Option`, used for body fields that may be absent and for a
  path id that may not parse.
- `decimal.dfy`: module `Decimal`. How an integral id is rendered in the 404 message's template
  literal, and a proof that distinct ids render as distinct texts.
- `products.dfy`: module `Products`. Contains:
  - the `Product`, `Body`, `Payload` and `Response` datatypes;
  - the array lookups the handlers use (`findIndex`, `find` and `filter`) as pure functions over
    `seq<Product>`;
  - the class `Store`, which holds the module-level state as fields and has one method per
    handler;
  - a client scenario.

Modelling choices:

- A path id is `Option<int>`, the result of `parseInt`. `None` stands for NaN. `HasId(p, id)`
  models `p.id === id`, which NaN never satisfies.
- A body is `Body(name, price)`, and each field is `Option` (`None` means absent). `name` is falsy
  when it is absent or `""`. `price` is refused only when it is absent, so a price of 0 is
  accepted.
- `updateProduct` builds `{ ...p, name, price }` from the body without checking it. A field the
  body omits is therefore stored as `undefined`. For this reason `Product.name` and
  `Product.price` are also `Option`.
- The ghost field `Store.issued` records every id ever handed out. It lets the model state that
  an id is never reused, even after the product that had it is deleted.
- `Store.Valid()` holds from the constructor onward, and every mutating handler keeps it. It says:
  - ids are unique;
  - every stored id was issued;
  - every issued id is below `nextId`.

## Model

| member | source | states |
|---|---|---|
| Products.Store.constructor | src/api/controllers/products.ts:6-11 | The store starts with exactly the three seed products, with ids 1, 2 and 3 in that order, and `nextId = 4`. The invariant holds: ids are unique and all below `nextId`. |
| Products.Store.GetProducts | src/api/controllers/products.ts:15-21 | Returns 200 with `success = true` and the whole collection in stored order. The state is unchanged because the method has no `modifies` clause. |
| Products.Store.GetProductById | src/api/controllers/products.ts:25-42 | Returns 200 exactly when some product has the parsed id, and the data is the first such product. Otherwise it returns the 404 envelope with `success = false`, `data = null` and the message naming the id. An unparsable id always gives 404. Nothing is modified. |
| Products.Store.CreateProduct | src/api/controllers/products.ts:46-65 | Returns 400 exactly when the name is absent or empty or the price is absent, and then changes nothing. Otherwise it does all of the following: appends one product whose id is the old `nextId`, an id never issued before; increments `nextId`; keeps all earlier entries; returns 201 with the new product; and afterwards `find` on that id yields it. The invariant is preserved. |
| Products.Store.UpdateProduct | src/api/controllers/products.ts:69-90 | Returns 404 exactly when no product has the id, and then the store is unchanged. Otherwise only `name` and `price` at the first matching index are replaced, with the body's values. The id, every other entry and `nextId` are unchanged. It returns 200 with the updated record. The invariant is preserved. |
| Products.Store.DeleteProduct | src/api/controllers/products.ts:94-112 | The collection becomes the filtered collection. The response is 404 exactly when no product had the id, the length is then unchanged and the collection is unchanged. On success exactly the one matching entry is removed, the others keep their order, and the response is 200. `data` is null on both paths. `nextId` is unchanged. Afterwards a lookup of the id finds nothing. |
| Products.FindIndex | src/api/controllers/products.ts:71-73 | The result is -1 exactly when no product has the id. Otherwise it is an index holding the id, with no earlier index holding it. |
| Products.Find | src/api/controllers/products.ts:27-29 | The result is absent exactly when no product has the id. Otherwise it is a product with that id at some index, with no earlier product holding the id. |
| Products.Without | src/api/controllers/products.ts:96-99 | The result holds exactly the products whose id differs from the given one. It is never longer than the input. Its length is unchanged exactly when nothing matched, and then it equals the input. |
| Products.UniqueMatch | src/api/controllers/products.ts:71-73 | When ids are unique, the index holding an id is the only one, and `findIndex` returns it. |
| Products.WithoutRemovesOne | src/api/controllers/products.ts:97-99 | When ids are unique, filtering out the id of entry k removes exactly entry k and keeps the remaining entries in their order. |
| Products.RemovalKeepsUnique | src/api/controllers/products.ts:97 | Removing one entry keeps ids unique, so delete preserves the invariant. |
| Products.NotFoundMessageNamesId | src/api/controllers/products.ts:30-34 | The 404 message identifies the requested id: two ids, NaN included, give the same message only if they are equal. |
| Decimal.IntTextInjective | src/api/controllers/products.ts:32 | Distinct integers are rendered as distinct texts in the message template. |
| Products.MonitorScenario | src/api/controllers/products.ts:57-64 | On a fresh store, creating "Monitor" at price 300 returns 201 with id 4. A following lookup of id 4 returns 200 with the same record. |

## Left out

- The Express request and response objects, JSON serialisation, routing and the application
  bootstrap (`src/app.ts`, `src/api/routes/sample.ts`) are not modelled. They are framework wiring
  with no logic. Each handler's outcome is the `Response` datatype.
- The sample endpoint (`src/api/controllers/sample.ts`) returns a constant and is not modelled.
- String parsing by `parseInt` is not modelled, including its leniency (`"12abc"` reads as 12).
  The parsed id is an input of type `Option<int>`.
- JavaScript number semantics are not modelled. Prices are integers and are never computed with.
  Ids and `nextId` are unbounded integers, so precision loss above 2^53 and exponent notation in
  message text are not modelled. `-0` is treated as 0.
- Body fields are typed as optional strings and integers. A body whose `name` is a non-string
  value (a number, `false`, `null`) is not modelled, and neither is a missing body.
- Concurrency is not modelled. Each handler runs to completion on one thread, so no
  interleaving exists.
