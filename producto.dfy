/** A product of the catalogue: a record whose name and category are fixed at
    construction and whose price and quantity change only through validating
    setters. Every validation failure of the source is a ValueError; here each
    one is a value of ErrorValor so that callers can tell them apart. */
module Productos {

  datatype Option<T> = None | Some(value: T)

  /** The ValueErrors the catalogue raises, one per message. */
  datatype ErrorValor =
    | PrecioNoPositivo           // set_precio with a price <= 0
    | CantidadNegativa           // set_cantidad with a quantity < 0
    | YaExiste(nombre: string)   // agregar_producto with a name already stored
    | NoExiste(nombre: string)   // actualizar/eliminar with a name not stored

  /** Outcome of an operation that returns None or raises a ValueError. */
  datatype Estado = Hecho | Fallo(error: ErrorValor)

  /** The two mutable fields of a product, as one value. */
  datatype Campos = Campos(precio: real, cantidad: int)

  /** What set_precio and set_cantidad accept. The constructor does not check
      it, so it is not an invariant of every product. */
  predicate CamposValidos(c: Campos) {
    c.precio > 0.0 && c.cantidad >= 0
  }

  class Producto {
    const nombre: string
    const categoria: string
    var precio: real
    var cantidad: int

    /** The four fields are stored as given, without any validation. */
    constructor (nombre: string, categoria: string, precio: real, cantidad: int)
      ensures this.nombre == nombre && this.categoria == categoria
      ensures this.precio == precio && this.cantidad == cantidad
    {
      this.nombre := nombre;
      this.categoria := categoria;
      this.precio := precio;
      this.cantidad := cantidad;
    }

    /** The price and quantity currently stored. */
    function CamposActuales(): (r: Campos)
      reads this
    {
      Campos(precio, cantidad)
    }

    /** Stores the new price when it is positive; otherwise fails and keeps the
        old one. Only the price can change. */
    method SetPrecio(p: real) returns (r: Estado)
      modifies this`precio
      ensures r == if p > 0.0 then Hecho else Fallo(PrecioNoPositivo)
      ensures precio == if p > 0.0 then p else old(precio)
      ensures cantidad == old(cantidad)
    {
      if p > 0.0 {
        precio := p;
        r := Hecho;
      } else {
        r := Fallo(PrecioNoPositivo);
      }
    }

    /** Stores the new quantity when it is not negative; otherwise fails and
        keeps the old one. Only the quantity can change. */
    method SetCantidad(c: int) returns (r: Estado)
      modifies this`cantidad
      ensures r == if c >= 0 then Hecho else Fallo(CantidadNegativa)
      ensures cantidad == if c >= 0 then c else old(cantidad)
      ensures precio == old(precio)
    {
      if c >= 0 {
        cantidad := c;
        r := Hecho;
      } else {
        r := Fallo(CantidadNegativa);
      }
    }
  }
}
