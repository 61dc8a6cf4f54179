# Inventario: an in-memory product catalogue

A Dafny model of `Inventario.py`. The file defines two classes:

- `Producto`, a product record. Its name and category are set once. Its price and
  quantity change only through the setters `set_precio` and `set_cantidad`. Each
  setter raises `ValueError` on a bad value and keeps the old value.
- `Inventario`, an ordered list of product references. It can add a product (only
  if no stored product has the same name), find a product by its exact name,
  update a product's price and quantity, and remove a product.

Files:

- `producto.dfy`, module `Productos`. It holds the class `Producto` and the
  datatypes shared by both classes:
  - `Option`;
  - `ErrorValor`, one constructor per `ValueError` message;
  - `Estado`, meaning "returned normally" or "raised this error";
  - `Campos`, the pair of price and quantity.
- `inventario.dfy`, module `Inventarios`. It holds:
  - specification functions over the list of products: `TieneNombre`,
    `Nombres`, `NombresUnicos`, `PrimeroConNombre`, `IndiceDe` and `Quitar`;
  - `Actualizado`, which gives the fields that `actualizar_producto` leaves
    behind;
  - the lemmas about these functions;
  - the class `Inventario`.
- `ejemplo.dfy`, module `Ejemplo`. It replays the usage script at the end of the
  file (lines 131-179) against the contracts. It shows that none of the script's
  calls raises. It checks the final list of eight products in order, the fields
  of the three updated products, and that the other products keep their
  original fields.

How the model is built:

- `nombre` and `categoria` are `const` fields. Name-based predicates over a list
  of products therefore read no heap state.
- `precio` is a `real` and `cantidad` is an `int`. Both are `var` fields.
  After construction, only `SetPrecio` and `SetCantidad` assign them.
- The getters `get_nombre`, `get_categoria`, `get_precio` and `get_cantidad` only
  return a field. They are modelled as direct reads of the fields.
- The constructor does not validate its arguments. So "price > 0 and
  quantity >= 0" (`CamposValidos`) is not an object invariant. It is a property
  that the setters and `Actualizado` preserve.
- Each Python exception is returned as `Fallo(e)` in an `Estado`. Normal return
  is `Hecho`. `buscar_producto` returns an `Option<Producto>`.
- The catalogue invariant `Valid()` says that no two stored products share a
  name. The constructor establishes it. The source's methods accept any list, so
  this model's methods do not require `Valid()`. Instead each method ensures
  `old(Valid()) ==> Valid()`.
- `eliminar_producto` calls `buscar_producto` and then `list.remove(producto)`.
  `Producto` defines no `__eq__`, so `list.remove` deletes the first element
  identical to the found object. `IndiceDe` models this. The lemma
  `IndiceDeEncontrado` shows that this first element sits at the position the
  search found.

`actualizar_producto` runs both setters in one `try` block, price first, so the
fields are not validated independently:

- A rejected price skips the quantity.
- A rejected quantity after a valid price leaves a partial update: the new price
  stays.
- The `ValueError` is caught and only printed, so `actualizar_producto` returns
  normally whenever the product exists.

`Actualizado` and `Inventario.ActualizarProducto` model this behaviour.

"Find returns nothing exactly when remove fails" follows from two contracts:
- `BuscarProducto` ensures `r.Some? <==> TieneNombre(productos, n)`;
- `EliminarProducto` ensures its result is `Hecho` exactly when
  `TieneNombre(old(productos), n)` holds.

## Model

| member | source | states |
|---|---|---|
| `Productos.Producto.constructor` | Inventario.py:5-12 | stores name, category, price and quantity exactly as given, with no validation |
| `Productos.Producto.SetPrecio` | Inventario.py:32-40 | the price becomes `p` iff `p > 0`, and then the call returns normally; otherwise it fails with `PrecioNoPositivo` and the price is unchanged; the quantity never changes (name and category are constant) |
| `Productos.Producto.SetCantidad` | Inventario.py:42-50 | the quantity becomes `c` iff `c >= 0`, and then the call returns normally; otherwise it fails with `CantidadNegativa` and the quantity is unchanged; the price never changes |
| `Inventarios.Nombres` | Inventario.py:70 | the names of a product list, position by position, with the same length as the list |
| `Inventarios.TieneNombre` | Inventario.py:70 | the duplicate test of `agregar_producto` (`any` over the stored names) holds exactly when the name occurs in the list of names |
| `Inventarios.NombresAgregado` | Inventario.py:72 | appending a product appends its name to the list of names |
| `Inventarios.PrimeroConNombre` | Inventario.py:124-127 | the result is None iff no product has the name; otherwise it is the position of a product with that name, and no earlier product has that name |
| `Inventarios.IndiceDe` | Inventario.py:102 | for a product that occurs in the list, the position of its first occurrence: the element `list.remove` deletes |
| `Inventarios.Quitar` | Inventario.py:102 | deleting position `i` keeps the elements before `i` in place and shifts the later ones down by one, so relative order is kept and the list is one shorter |
| `Inventarios.QuitarConservaOrden` | Inventario.py:102 | the multiset of the list loses exactly one copy of the deleted element and nothing else |
| `Inventarios.AgregarConservaUnicos` | Inventario.py:70-72 | appending a product whose name is absent keeps names unique, and the name is then present |
| `Inventarios.QuitarConservaUnicos` | Inventario.py:100-102 | removing any position from a list with unique names keeps them unique, and leaves no product with the removed name |
| `Inventarios.UnicoConNombre` | Inventario.py:124-127 | with unique names, any position holding name `n` is the one the search returns, so the first match is the only match |
| `Inventarios.IndiceDeEncontrado` | Inventario.py:100-102 | the product found by name is first found, as an object, at the same position, so `list.remove` deletes exactly the found entry |
| `Inventarios.Actualizado` | Inventario.py:84-91 | the fields the `try` block leaves: the price is the requested one iff a price was given and is positive; the quantity is the requested one iff a quantity was given, is not negative, and no price was rejected before it |
| `Inventarios.PrecioRechazadoNoCambiaNada` | Inventario.py:85-88 | a rejected price leaves both fields unchanged, even when the requested quantity is valid |
| `Inventarios.ActualizacionParcial` | Inventario.py:85-91 | a valid price followed by a rejected quantity keeps the new price and the old quantity |
| `Inventarios.ActualizadoConservaValidez` | Inventario.py:84-91 | an update never takes a product with positive price and non-negative quantity out of that state |
| `Inventarios.Inventario.constructor` | Inventario.py:61-63 | the catalogue starts empty, so it satisfies the unique-name invariant |
| `Inventarios.Inventario.AgregarProducto` | Inventario.py:65-73 | fails with `YaExiste` and leaves the list unchanged iff a stored product has the new product's name; otherwise the list becomes the old list with the product appended, and its list of names the old names plus the new one; the unique-name invariant is kept; no product is modified |
| `Inventarios.Inventario.BuscarProducto` | Inventario.py:118-127 | returns a product iff some stored product has the name, and then it is the first such product in list order; changes nothing |
| `Inventarios.Inventario.ActualizarProducto` | Inventario.py:75-93 | the list is unchanged; a missing name fails with `NoExiste` and no product changes; an existing name returns normally, though a setter may have failed: the first product with that name gets the fields given by `Actualizado` (price first, a failing price skips the quantity), and no other product changes |
| `Inventarios.Inventario.EliminarProducto` | Inventario.py:95-105 | a missing name fails with `NoExiste` and the list is unchanged; otherwise the list loses exactly the first product with that name and the rest keep their order; no product is modified; with unique names the invariant is kept and no product with that name remains |

## Left out

- All `print` calls (Inventario.py:73, 89, 91, 103, 112-116). They only write to
  the console. The message printed on a caught `ValueError` is therefore not
  modelled, only the fact that the error does not reach the caller.
- `mostrar_inventario` (Inventario.py:107-116). It only prints the list in order.
  The list itself is the public field `Inventario.productos`.
- `Producto.__str__` (Inventario.py:52-54). It only formats output.
- `get_nombre`, `get_categoria`, `get_precio`, `get_cantidad`: modelled as reads
  of the fields they return, because they do nothing else.
- Floating-point semantics of the price. `precio` is a `real`, so there is no
  NaN, no infinity and no rounding. The source only compares the price with 0
  and assigns it.
- Python's dynamic typing. The source does not check the argument types, so a
  non-number price or a non-`Producto` argument is not modelled.
- Name-mangled private fields. Dafny fields are public, so the model does not
  prevent code outside the two classes from assigning `precio` or `cantidad`.
- `ejemplo.dfy` replays the script's calls as verified methods. The `try`/`except`
  around the script is not modelled, because none of its calls raises.
- Concurrency. The source is single-threaded.
