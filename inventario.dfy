/** The catalogue: an ordered list of product references, with add (rejecting a
    name already present), find by exact name, update of price and quantity,
    and remove. Names are compared exactly and are the key of the catalogue. */
module Inventarios {
  import opened Productos

  // ---------------------------------------------------------------------------
  // Specification of the list of products
  // ---------------------------------------------------------------------------

  /** Some product of s carries the name n (the test of agregar_producto):
      the name occurs in the list of names. */
  predicate TieneNombre(s: seq<Producto>, n: string)
    ensures TieneNombre(s, n) <==> n in Nombres(s)
  {
    exists i :: 0 <= i < |s| && s[i].nombre == n
  }

  /** The names of the products of s, in the same order. */
  function Nombres(s: seq<Producto>): (r: seq<string>)
    ensures |r| == |s|
    ensures forall i :: 0 <= i < |s| ==> r[i] == s[i].nombre
  {
    if s == [] then [] else [s[0].nombre] + Nombres(s[1..])
  }

  /** Appending a product appends its name. */
  lemma NombresAgregado(s: seq<Producto>, p: Producto)
    ensures Nombres(s + [p]) == Nombres(s) + [p.nombre]
  {
  }

  /** No two positions of s hold products with the same name. */
  predicate NombresUnicos(s: seq<Producto>) {
    forall i, j :: 0 <= i < |s| && 0 <= j < |s| && s[i].nombre == s[j].nombre ==> i == j
  }

  /** The position at which the scan of buscar_producto stops: the first
      product named n, or None when no product is. */
  function PrimeroConNombre(s: seq<Producto>, n: string): (r: Option<nat>)
    ensures r.None? <==> !TieneNombre(s, n)
    ensures r.Some? ==> r.value < |s| && s[r.value].nombre == n
    ensures r.Some? ==> forall j :: 0 <= j < r.value ==> s[j].nombre != n
  {
    if s == [] then None
    else if s[0].nombre == n then Some(0)
    else match PrimeroConNombre(s[1..], n)
      case None => None
      case Some(k) => Some(k + 1)
  }

  /** The position of the first element identical to p: the one that Python's
      list.remove(p) deletes (products have no __eq__, so equality is identity). */
  function IndiceDe(s: seq<Producto>, p: Producto): (r: nat)
    requires p in s
    ensures r < |s| && s[r] == p
    ensures forall j :: 0 <= j < r ==> s[j] != p
  {
    if s[0] == p then 0 else 1 + IndiceDe(s[1..], p)
  }

  /** s without its element at position i: the elements before i stay in
      place and the later ones move down by one, so relative order is kept. */
  function Quitar(s: seq<Producto>, i: nat): (r: seq<Producto>)
    requires i < |s|
    ensures |r| == |s| - 1
    ensures forall k :: 0 <= k < i ==> r[k] == s[k]
    ensures forall k :: i <= k < |s| - 1 ==> r[k] == s[k + 1]
  {
    s[..i] + s[i + 1..]
  }

  /** Removing position i removes exactly one occurrence, that of s[i], and
      keeps every other product. */
  lemma QuitarConservaOrden(s: seq<Producto>, i: nat)
    requires i < |s|
    ensures multiset(Quitar(s, i)) + multiset{s[i]} == multiset(s)
  {
    assert s == s[..i] + [s[i]] + s[i + 1..];
  }

  /** Appending a product whose name is absent keeps names unique, and the name
      is then present. */
  lemma AgregarConservaUnicos(s: seq<Producto>, p: Producto)
    requires NombresUnicos(s) && !TieneNombre(s, p.nombre)
    ensures NombresUnicos(s + [p])
    ensures TieneNombre(s + [p], p.nombre)
  {
    var t := s + [p];
    assert forall k :: 0 <= k < |s| ==> t[k] == s[k];
    assert t[|s|] == p;
  }

  /** Removing a product from a list with unique names keeps them unique, and
      no product of the removed one's name is left. */
  lemma QuitarConservaUnicos(s: seq<Producto>, i: nat)
    requires NombresUnicos(s) && i < |s|
    ensures NombresUnicos(Quitar(s, i))
    ensures !TieneNombre(Quitar(s, i), s[i].nombre)
  {
  }

  /** With unique names the first product named n is the only one: any
      position holding that name is the one buscar_producto finds. */
  lemma UnicoConNombre(s: seq<Producto>, n: string, i: nat)
    requires NombresUnicos(s) && i < |s| && s[i].nombre == n
    ensures PrimeroConNombre(s, n) == Some(i)
  {
  }

  /** The product buscar_producto finds is also the first occurrence of that
      object, so list.remove deletes exactly the position that was found. The
      names never change, so an earlier occurrence would have been found. */
  lemma IndiceDeEncontrado(s: seq<Producto>, n: string)
    requires TieneNombre(s, n)
    ensures IndiceDe(s, s[PrimeroConNombre(s, n).value]) == PrimeroConNombre(s, n).value
  {
  }

  // ---------------------------------------------------------------------------
  // Specification of actualizar_producto on the product it finds
  // ---------------------------------------------------------------------------

  /** Price and quantity after the try block of actualizar_producto: the price
      is attempted first and a rejected price raises before the quantity is
      attempted; a rejected quantity leaves the new price in place. The
      ValueError is caught in both cases. Field by field: the price is the
      requested one exactly when one was given and is positive; the quantity is
      the requested one exactly when one was given, is not negative, and the
      price did not fail before it. */
  function Actualizado(c: Campos, precio: Option<real>, cantidad: Option<int>): (r: Campos)
    ensures r.precio == if precio.Some? && precio.value > 0.0 then precio.value else c.precio
    ensures r.cantidad
      == if cantidad.Some? && cantidad.value >= 0 && !(precio.Some? && precio.value <= 0.0)
         then cantidad.value else c.cantidad
  {
    if precio.Some? && !(precio.value > 0.0) then c
    else
      var c1 := if precio.Some? then c.(precio := precio.value) else c;
      if cantidad.Some? && cantidad.value >= 0 then c1.(cantidad := cantidad.value) else c1
  }

  /** A rejected price changes nothing at all, even when the requested
      quantity is valid: the quantity update is skipped. */
  lemma PrecioRechazadoNoCambiaNada(c: Campos, p: real, cantidad: Option<int>)
    requires p <= 0.0
    ensures Actualizado(c, Some(p), cantidad) == c
  {
  }

  /** A valid price followed by a rejected quantity is a partial update: the
      new price stays and the quantity keeps its old value. */
  lemma ActualizacionParcial(c: Campos, p: real, q: int)
    requires p > 0.0 && q < 0
    ensures Actualizado(c, Some(p), Some(q)) == Campos(p, c.cantidad)
  {
  }

  /** An update never takes a product with valid fields out of validity. */
  lemma ActualizadoConservaValidez(c: Campos, precio: Option<real>, cantidad: Option<int>)
    requires CamposValidos(c)
    ensures CamposValidos(Actualizado(c, precio, cantidad))
  {
  }

  // ---------------------------------------------------------------------------
  // The catalogue
  // ---------------------------------------------------------------------------

  class Inventario {
    var productos: seq<Producto>

    /** The catalogue's invariant: no two stored products share a name. */
    ghost predicate Valid()
      reads this
    {
      NombresUnicos(productos)
    }

    /** An empty catalogue. */
    constructor ()
      ensures productos == [] && Valid()
    {
      productos := [];
    }

    /** Appends p unless a stored product already has its name, in which case
        it fails and leaves the list as it was. */
    method AgregarProducto(p: Producto) returns (r: Estado)
      modifies this
      ensures r == if TieneNombre(old(productos), p.nombre) then Fallo(YaExiste(p.nombre)) else Hecho
      ensures productos == if r.Hecho? then old(productos) + [p] else old(productos)
      ensures r.Fallo? <==> p.nombre in Nombres(old(productos))
      ensures r.Hecho? ==> Nombres(productos) == Nombres(old(productos)) + [p.nombre]
      ensures old(Valid()) ==> Valid()
    {
      NombresAgregado(productos, p);
      if TieneNombre(productos, p.nombre) {
        return Fallo(YaExiste(p.nombre));
      }
      if NombresUnicos(productos) {
        AgregarConservaUnicos(productos, p);
      }
      productos := productos + [p];
      r := Hecho;
    }

    /** Scans the list in order and returns the first product named n, or None
        when there is none. Changes nothing. */
    method BuscarProducto(n: string) returns (r: Option<Producto>)
      ensures r.Some? <==> TieneNombre(productos, n)
      ensures r.Some? ==> r.value == productos[PrimeroConNombre(productos, n).value]
      ensures r.Some? ==> r.value in productos && r.value.nombre == n
    {
      var i := 0;
      while i < |productos|
        invariant 0 <= i <= |productos|
        invariant forall j :: 0 <= j < i ==> productos[j].nombre != n
      {
        if productos[i].nombre == n {
          return Some(productos[i]);
        }
        i := i + 1;
      }
      return None;
    }

    /** Updates the product named n through its setters, price first. A
        ValueError from a setter ends the attempt and is swallowed, so the call
        succeeds whenever the product exists; when it does not, the call fails
        and nothing changes. Only the found product's price and quantity can
        change; the list and every other product stay as they were. */
    method ActualizarProducto(n: string, precio: Option<real>, cantidad: Option<int>)
        returns (r: Estado)
      modifies productos
      ensures productos == old(productos)
      ensures r == if TieneNombre(productos, n) then Hecho else Fallo(NoExiste(n))
      ensures !TieneNombre(productos, n) ==> forall q :: q in productos ==> unchanged(q)
      ensures TieneNombre(productos, n) ==>
        var p := productos[PrimeroConNombre(productos, n).value];
        p.CamposActuales() == Actualizado(old(p.CamposActuales()), precio, cantidad) &&
        forall q :: q in productos && q != p ==> unchanged(q)
      ensures old(Valid()) ==> Valid()
    {
      var encontrado := BuscarProducto(n);
      match encontrado {
        case None =>
          r := Fallo(NoExiste(n));
        case Some(producto) =>
          // the try block: a failing set_precio skips set_cantidad
          var intento := Hecho;
          if precio.Some? {
            intento := producto.SetPrecio(precio.value);
          }
          if intento.Hecho? && cantidad.Some? {
            intento := producto.SetCantidad(cantidad.value);
          }
          // the except clause only reports the error
          r := Hecho;
      }
    }

    /** Removes the first product named n, keeping the others in order; fails
        and leaves the list as it was when no product has that name. */
    method EliminarProducto(n: string) returns (r: Estado)
      modifies this
      ensures r == if TieneNombre(old(productos), n) then Hecho else Fallo(NoExiste(n))
      ensures productos == match PrimeroConNombre(old(productos), n)
                           case None => old(productos)
                           case Some(i) => Quitar(old(productos), i)
      ensures old(Valid()) ==> Valid() && !TieneNombre(productos, n)
    {
      var encontrado := BuscarProducto(n);
      match encontrado {
        case None =>
          r := Fallo(NoExiste(n));
        case Some(producto) =>
          IndiceDeEncontrado(productos, n);
          if NombresUnicos(productos) {
            QuitarConservaUnicos(productos, IndiceDe(productos, producto));
          }
          // list.remove(producto)
          productos := Quitar(productos, IndiceDe(productos, producto));
          r := Hecho;
      }
    }
  }
}
