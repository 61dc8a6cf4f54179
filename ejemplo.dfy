/** The usage example at the end of Inventario.py, replayed against the
    contracts of the catalogue: every call of the script succeeds, and the
    asserts state what the script prints afterwards. */
module Ejemplo {
  import opened Productos
  import opened Inventarios

  const NOMBRES := ["Laptop", "Mouse", "Teclado", "Monitor", "Impresora", "Silla Gamer", "Cámara",
                    "Auriculares", "Smartphone", "Cargador"]
  const CAMPOS := [Campos(1200.99, 10), Campos(25.50, 100), Campos(45.99, 50), Campos(300.00, 20),
                   Campos(150.00, 15), Campos(250.00, 5), Campos(800.00, 8), Campos(60.00, 30),
                   Campos(900.00, 25), Campos(20.00, 150)]

  /** No name of the script is used twice. */
  lemma NombresDistintos()
    ensures forall i, j :: 0 <= i < j < |NOMBRES| ==> NOMBRES[i] != NOMBRES[j]
  {
  }

  /** The ten products of the script, created without validation. */
  method NuevosProductos() returns (productos: seq<Producto>)
    ensures Nombres(productos) == NOMBRES
    ensures forall k :: 0 <= k < |productos| ==> fresh(productos[k])
    ensures forall k :: 0 <= k < |productos| ==> productos[k].CamposActuales() == CAMPOS[k]
  {
    var laptop := new Producto("Laptop", "Electrónica", 1200.99, 10);
    var mouse := new Producto("Mouse", "Accesorios", 25.50, 100);
    var teclado := new Producto("Teclado", "Accesorios", 45.99, 50);
    var monitor := new Producto("Monitor", "Electrónica", 300.00, 20);
    var impresora := new Producto("Impresora", "Oficina", 150.00, 15);
    var silla := new Producto("Silla Gamer", "Muebles", 250.00, 5);
    var camara := new Producto("Cámara", "Fotografía", 800.00, 8);
    var auriculares := new Producto("Auriculares", "Audio", 60.00, 30);
    var smartphone := new Producto("Smartphone", "Electrónica", 900.00, 25);
    var cargador := new Producto("Cargador", "Accesorios", 20.00, 150);
    productos := [laptop, mouse, teclado, monitor, impresora, silla, camara, auriculares, smartphone,
                  cargador];
  }

  /** The first part of the script: the ten products added in order. Their
      names are distinct, so every call of agregar_producto succeeds. */
  method CrearInventario() returns (inventario: Inventario, productos: seq<Producto>)
    ensures fresh(inventario) && inventario.productos == productos && inventario.Valid()
    ensures Nombres(productos) == NOMBRES
    ensures forall k :: 0 <= k < |productos| ==> fresh(productos[k])
    ensures forall k :: 0 <= k < |productos| ==> productos[k].CamposActuales() == CAMPOS[k]
  {
    productos := NuevosProductos();
    NombresDistintos();
    assert NombresUnicos(productos);
    inventario := new Inventario();
    for i := 0 to |productos|
      invariant inventario.productos == productos[..i] && inventario.Valid()
      invariant forall k :: 0 <= k < |productos| ==> productos[k].CamposActuales() == CAMPOS[k]
    {
      assert !TieneNombre(productos[..i], productos[i].nombre);
      var r := inventario.AgregarProducto(productos[i]);
      assert r == Hecho;
    }
    assert inventario.productos == productos;
  }

  /** One call of actualizar_producto on the script's name at position i:
      that product gets the fields given by Actualizado and no other product
      changes. */
  method ActualizarUno(inventario: Inventario, productos: seq<Producto>, i: nat,
                       precio: Option<real>, cantidad: Option<int>)
    requires inventario.productos == productos && inventario.Valid() && Nombres(productos) == NOMBRES
    requires i < |productos|
    modifies productos
    ensures productos[i].CamposActuales() == Actualizado(old(productos[i].CamposActuales()), precio, cantidad)
    ensures forall k :: 0 <= k < |productos| && k != i ==>
      productos[k].CamposActuales() == old(productos[k].CamposActuales())
  {
    assert forall k :: 0 <= k < |productos| ==> productos[k] in productos;
    NombresDistintos();
    forall k | 0 <= k < |productos| && k != i
      ensures productos[k] != productos[i]
    {
      assert Nombres(productos)[k] != Nombres(productos)[i];
    }
    UnicoConNombre(productos, NOMBRES[i], i);
    var r := inventario.ActualizarProducto(NOMBRES[i], precio, cantidad);
    assert r == Hecho;
  }

  /** The script's three calls of actualizar_producto, each on a stored name:
      a quantity alone, a price alone, and both. */
  method Actualizaciones(inventario: Inventario, productos: seq<Producto>)
    requires inventario.productos == productos && inventario.Valid() && Nombres(productos) == NOMBRES
    requires forall k :: 0 <= k < |productos| ==> productos[k].CamposActuales() == CAMPOS[k]
    modifies productos
    ensures productos[1].CamposActuales() == Campos(25.50, 95)
    ensures productos[3].CamposActuales() == Campos(280.00, 20)
    ensures productos[9].CamposActuales() == Campos(18.00, 160)
    ensures forall k :: 0 <= k < |productos| && k != 1 && k != 3 && k != 9 ==>
      productos[k].CamposActuales() == CAMPOS[k]
  {
    ActualizarUno(inventario, productos, 1, None, Some(95));        // "Mouse"
    ActualizarUno(inventario, productos, 3, Some(280.00), None);    // "Monitor"
    ActualizarUno(inventario, productos, 9, Some(18.00), Some(160)); // "Cargador"
  }

  /** The script's search for "Auriculares" finds the stored object. */
  method Busqueda(inventario: Inventario, productos: seq<Producto>)
    requires inventario.productos == productos && inventario.Valid() && Nombres(productos) == NOMBRES
  {
    UnicoConNombre(inventario.productos, "Auriculares", 7);
    var encontrado := inventario.BuscarProducto("Auriculares");
    assert encontrado == Some(productos[7]);
  }

  /** The script's two removals; the other products keep their order. */
  method Eliminaciones(inventario: Inventario, productos: seq<Producto>)
    requires inventario.productos == productos && inventario.Valid() && Nombres(productos) == NOMBRES
    modifies inventario
    ensures inventario.productos == Quitar(productos[1..], 4)
  {
    UnicoConNombre(inventario.productos, "Laptop", 0);
    var r := inventario.EliminarProducto("Laptop");
    assert r == Hecho && inventario.productos == productos[1..];
    assert inventario.productos[4] == productos[5];
    UnicoConNombre(inventario.productos, "Silla Gamer", 4);
    r := inventario.EliminarProducto("Silla Gamer");
    assert r == Hecho;
  }

  /** The whole script: no call raises, so its except clause never runs. */
  method EjemploDeUso() {
    var inventario, productos := CrearInventario();
    Actualizaciones(inventario, productos);
    Busqueda(inventario, productos);
    Eliminaciones(inventario, productos);
    QuitarConservaOrden(productos[1..], 4);
    assert |inventario.productos| == 8 && inventario.productos[4] == productos[6];
    // the final state the script prints: eight products, three of them updated
    assert forall k :: 0 <= k < 8 ==> inventario.productos[k] == (productos[1..5] + productos[6..])[k];
    assert inventario.productos[0].CamposActuales() == Campos(25.50, 95);
    assert inventario.productos[2].CamposActuales() == Campos(280.00, 20);
    assert inventario.productos[7].CamposActuales() == Campos(18.00, 160);
    assert forall k :: 0 <= k < 8 && k != 0 && k != 2 && k != 7 ==>
      inventario.productos[k].CamposActuales() == CAMPOS[if k < 4 then k + 1 else k + 2];
  }
}
