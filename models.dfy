/** The entities of the order-management application (SippApp/models.py):
    clients, suppliers, categories, hardware products with their
    characteristics, informatics services, orders and their line items, with
    the computed properties, the model-level validation, the unit-price
    snapshot taken when a line item is saved, and the unique-together
    constraints of the tables. */
module Models {

  import opened Optional
  import opened Text
  import opened Seqs

  /** Money: every amount is a `DecimalField(decimal_places=2)`; here, cents. */
  type Cents = int

  /** A calendar date, as a day number. */
  type Date = int

  /** A point in time, in seconds; `DateOf` gives its calendar date. */
  type Timestamp = int

  const SecondsPerDay: int := 86400

  /** The `__date` part of a timestamp (time zones are not modelled). */
  function DateOf(t: Timestamp): Date {
    t / SecondsPerDay
  }

  /** Validation errors keyed by field name, as Django's `ValidationError`
      dictionaries and `form.errors` hold them. */
  type ErrorDict = map<string, seq<string>>

  // ------------------------------------------------------------------ choices

  /** A `choices` list: (stored key, display label) pairs. */
  type Choices = seq<(string, string)>

  predicate HasKey(choices: Choices, key: string) {
    exists i :: 0 <= i < |choices| && choices[i].0 == key
  }

  predicate UniqueKeys(choices: Choices) {
    forall i, j :: 0 <= i < j < |choices| ==> choices[i].0 != choices[j].0
  }

  /** `dict(choices).get(key)`. Building a dict keeps the last pair of a
      repeated key, so the label found is the one of the last matching pair. */
  function Lookup(choices: Choices, key: string): (r: Option<string>)
    ensures r.Some? <==> HasKey(choices, key)
    ensures r.Some? ==> exists i :: 0 <= i < |choices| && choices[i] == (key, r.value) &&
                          forall j :: i < j < |choices| ==> choices[j].0 != key
  {
    if choices == [] then None
    else
      var rest := Lookup(choices[1..], key);
      assert HasKey(choices, key) <==> choices[0].0 == key || HasKey(choices[1..], key) by {
        if HasKey(choices, key) && choices[0].0 != key {
          var i :| 0 <= i < |choices| && choices[i].0 == key;
          assert choices[1..][i - 1].0 == key;
        }
        if HasKey(choices[1..], key) {
          var i :| 0 <= i < |choices[1..]| && choices[1..][i].0 == key;
          assert choices[i + 1].0 == key;
        }
      }
      if rest.Some? then
        assert exists i :: 0 <= i < |choices| && choices[i] == (key, rest.value) &&
                           forall j :: i < j < |choices| ==> choices[j].0 != key by {
          var i :| 0 <= i < |choices[1..]| && choices[1..][i] == (key, rest.value) &&
                   forall j :: i < j < |choices[1..]| ==> choices[1..][j].0 != key;
          assert choices[i + 1] == (key, rest.value);
          forall j | i + 1 < j < |choices| ensures choices[j].0 != key {
            assert choices[j] == choices[1..][j - 1];
          }
        }
        rest
      else if choices[0].0 == key then
        assert forall j :: 0 < j < |choices| ==> choices[j].0 != key by {
          forall j | 0 < j < |choices| ensures choices[j].0 != key {
            assert choices[j] == choices[1..][j - 1];
          }
        }
        Some(choices[0].1)
      else None
  }

  /** `get_FOO_display()`: the label of a stored key, or the key itself when
      it is not one of the choices. */
  function Display(choices: Choices, key: string): (r: string)
    ensures HasKey(choices, key) ==> exists i :: 0 <= i < |choices| && choices[i] == (key, r)
    ensures !HasKey(choices, key) ==> r == key
  {
    Lookup(choices, key).GetOr(key)
  }

  /** In a table without repeated keys, `Display` gives each key its own label. */
  lemma {:induction false} DisplayOfChoice(choices: Choices, i: int)
    requires UniqueKeys(choices) && 0 <= i < |choices|
    ensures Display(choices, choices[i].0) == choices[i].1
  {
    if i > 0 {
      assert choices[0].0 != choices[i].0;
      assert UniqueKeys(choices[1..]) by {
        forall a, b | 0 <= a < b < |choices[1..]| ensures choices[1..][a].0 != choices[1..][b].0 {
          assert choices[1..][a] == choices[a + 1] && choices[1..][b] == choices[b + 1];
        }
      }
      DisplayOfChoice(choices[1..], i - 1);
    }
  }

  const TipoProductoChoices: Choices := [
    ("switch", "Switch"),
    ("disco_duro", "Disco Duro"),
    ("ram", "RAM"),
    ("impresora", "Impresora"),
    ("teclado", "Teclado"),
    ("mouse", "Mouse"),
    ("ordenador", "Ordenador"),
    ("laptop", "Laptop"),
    ("otros", "Otros")
  ]

  const UnidadDuracionChoices: Choices := [
    ("horas", "Horas"),
    ("dias", "D\U{ed}as"),
    ("meses", "Meses")
  ]

  const EstadoPedidoChoices: Choices := [
    ("pendiente", "Pendiente"),
    ("confirmado", "Confirmado"),
    ("en_proceso", "En Proceso"),
    ("completado", "Completado"),
    ("cancelado", "Cancelado"),
    ("otros", "Otros")
  ]

  // ------------------------------------------------------- field validators

  /** The message of `MinValueValidator(limit)`. */
  function MinValueMessage(limit: nat): string {
    "Ensure this value is greater than or equal to " + NatToString(limit) + "."
  }

  /** `MinValueValidator(limit)` on a model field, as `full_clean` runs it:
      no error for a value at or above the limit, and otherwise one error,
      under the field's name. */
  function MinValueErrors(field: string, limit: nat, v: int): (r: ErrorDict)
    ensures r == map[] <==> v >= limit
    ensures r != map[] ==> r.Keys == {field} && r[field] == [MinValueMessage(limit)]
  {
    if v < limit then
      var r := map[field := [MinValueMessage(limit)]];
      assert field in r;
      r
    else map[]
  }

  /** The limits of the validators: budgets and prices at least 0, line
      quantities at least 1. */
  const PresupuestoMin: nat := 0
  const PrecioMin: nat := 0
  const CantidadMin: nat := 1

  // ------------------------------------------------------------------ Cliente

  datatype Cliente = Cliente(
    id: int,
    nombre: string,
    encargado: string,
    presupuesto: Cents,
    email_contacto: string,
    fecha_vencimiento_presupuesto: Date)

  /** `presupuesto_vencido`, with the current date passed in. */
  predicate PresupuestoVencido(c: Cliente, today: Date) {
    today > c.fecha_vencimiento_presupuesto
  }

  /** The budget is still valid on its expiry date and, once expired, stays expired. */
  lemma PresupuestoVencidoBoundary(c: Cliente, today: Date, later: Date)
    ensures !PresupuestoVencido(c, c.fecha_vencimiento_presupuesto)
    ensures PresupuestoVencido(c, c.fecha_vencimiento_presupuesto + 1)
    ensures PresupuestoVencido(c, today) && today <= later ==> PresupuestoVencido(c, later)
  {
  }

  datatype EmpresaProveedora = EmpresaProveedora(id: int, nombre: string, encargado: string)

  datatype CategoriaProducto = CategoriaProducto(id: int, nombre: string, descripcion: string)

  // -------------------------------------------------------- ProductoHardware

  datatype CaracteristicaProductoHardware = Caracteristica(attr: string, valor: string)

  /** A hardware product; `caracteristicas` are the rows of
      CaracteristicaProductoHardware that point at it. */
  datatype ProductoHardware = ProductoHardware(
    id: int,
    nombre: string,
    tipo: string,
    tipo_personalizado: string,
    precio: Cents,
    empresa_proveedora: Option<int>,
    categoria: Option<int>,
    activo: bool,
    caracteristicas: seq<CaracteristicaProductoHardware>)

  /** `tipo_seleccion`: the custom type when "otros" is chosen and one is
      given, the display label of the type otherwise. */
  function TipoSeleccion(p: ProductoHardware): string {
    if p.tipo == "otros" && p.tipo_personalizado != "" then p.tipo_personalizado
    else Display(TipoProductoChoices, p.tipo)
  }

  lemma TipoProductoChoicesUnique()
    ensures UniqueKeys(TipoProductoChoices)
  {
  }

  /** What `tipo_seleccion` shows in each case. */
  lemma TipoSeleccionCases(p: ProductoHardware)
    ensures p.tipo == "otros" && p.tipo_personalizado != "" ==> TipoSeleccion(p) == p.tipo_personalizado
    ensures p.tipo == "otros" && p.tipo_personalizado == "" ==> TipoSeleccion(p) == "Otros"
    ensures forall i :: 0 <= i < |TipoProductoChoices| - 1 && p.tipo == TipoProductoChoices[i].0 ==>
              TipoSeleccion(p) == TipoProductoChoices[i].1
    ensures !HasKey(TipoProductoChoices, p.tipo) ==> TipoSeleccion(p) == p.tipo
  {
    TipoProductoChoicesUnique();
    DisplayOfChoice(TipoProductoChoices, 8);
    forall i | 0 <= i < |TipoProductoChoices| - 1 && p.tipo == TipoProductoChoices[i].0
      ensures TipoSeleccion(p) == TipoProductoChoices[i].1
    {
      DisplayOfChoice(TipoProductoChoices, i);
    }
  }

  const TipoPersonalizadoMessage: string :=
    "Debe especificar un tipo personalizado cuando selecciona \"Otros\""

  /** `ProductoHardware.clean()`: the result of model validation. */
  datatype Validation = Valid | Invalid(errors: ErrorDict)

  function ProductoClean(p: ProductoHardware): (r: Validation)
    ensures r.Invalid? ==> r.errors.Keys == {"tipo_personalizado"} &&
                           r.errors["tipo_personalizado"] == [TipoPersonalizadoMessage]
  {
    if p.tipo == "otros" && p.tipo_personalizado == "" then
      Invalid(map["tipo_personalizado" := [TipoPersonalizadoMessage]])
    else Valid
  }

  /** Validation fails, and then only on `tipo_personalizado`, exactly for
      "otros" without a custom type; a product that passes and is of type
      "otros" is shown by its custom type, one that fails is shown as "Otros". */
  lemma ProductoCleanSpec(p: ProductoHardware)
    ensures ProductoClean(p).Invalid? <==> p.tipo == "otros" && p.tipo_personalizado == ""
    ensures ProductoClean(p).Invalid? ==> ProductoClean(p).errors.Keys == {"tipo_personalizado"}
    ensures ProductoClean(p).Valid? && p.tipo == "otros" ==> TipoSeleccion(p) == p.tipo_personalizado
    ensures ProductoClean(p).Invalid? ==> TipoSeleccion(p) == "Otros"
  {
    TipoSeleccionCases(p);
  }

  // ----------------------------------------------------- ServicioInformatico

  /** An informatics service; `tipos` are its TipoServicio rows. */
  datatype ServicioInformatico = ServicioInformatico(
    id: int,
    nombre: string,
    duracion: nat,
    unidad_duracion: string,
    descripcion: string,
    precio: Cents,
    observaciones: string,
    empresa_proveedora: int,
    activo: bool,
    tipos: seq<string>)

  /** `duracion_completa`: the duration, a space, the unit's display label.
      The text up to its first space is the decimal duration. */
  function DuracionCompleta(s: ServicioInformatico): (r: string)
    ensures FirstSpace(r) == |NatToString(s.duracion)| && r[..FirstSpace(r)] == NatToString(s.duracion)
  {
    var r := NatToString(s.duracion) + " " + Display(UnidadDuracionChoices, s.unidad_duracion);
    FirstSpaceAfterDigits(NatToString(s.duracion), Display(UnidadDuracionChoices, s.unidad_duracion));
    r
  }

  /** The position of the first space in `s`, or `|s|` when there is none. */
  function FirstSpace(s: string): (k: nat)
    ensures k <= |s|
  {
    if s == [] || s[0] == ' ' then 0 else 1 + FirstSpace(s[1..])
  }

  lemma {:induction false} FirstSpaceAfterDigits(x: string, rest: string)
    requires AllDigits(x)
    ensures FirstSpace(x + " " + rest) == |x|
  {
    if x != [] {
      assert (x + " " + rest)[1..] == x[1..] + " " + rest;
      FirstSpaceAfterDigits(x[1..], rest);
    }
  }

  /** Splitting a digit string off at the first space is unambiguous. */
  lemma DigitsBeforeSpace(x: string, u: string, y: string, v: string)
    requires AllDigits(x) && AllDigits(y)
    requires x + " " + u == y + " " + v
    ensures x == y && u == v
  {
    var a, b := x + " " + u, y + " " + v;
    FirstSpaceAfterDigits(x, u);
    FirstSpaceAfterDigits(y, v);
    assert x == a[..|x|] == b[..|y|] == y;
    assert u == a[|x| + 1..] == b[|y| + 1..] == v;
  }

  /** The text "3 Días" determines both the duration and the unit: two
      services with valid units and the same `duracion_completa` agree on both. */
  lemma DuracionCompletaDetermines(a: ServicioInformatico, b: ServicioInformatico)
    requires HasKey(UnidadDuracionChoices, a.unidad_duracion)
    requires HasKey(UnidadDuracionChoices, b.unidad_duracion)
    requires DuracionCompleta(a) == DuracionCompleta(b)
    ensures a.duracion == b.duracion && a.unidad_duracion == b.unidad_duracion
  {
    DigitsBeforeSpace(NatToString(a.duracion), Display(UnidadDuracionChoices, a.unidad_duracion),
                      NatToString(b.duracion), Display(UnidadDuracionChoices, b.unidad_duracion));
    NatToStringInjective(a.duracion, b.duracion);
  }

  /** Each unit reads as its label: "3 Horas", "3 Días", "3 Meses". */
  lemma DuracionCompletaLabels(s: ServicioInformatico)
    ensures s.unidad_duracion == "horas" ==> DuracionCompleta(s) == NatToString(s.duracion) + " Horas"
    ensures s.unidad_duracion == "dias" ==> DuracionCompleta(s) == NatToString(s.duracion) + " D\U{ed}as"
    ensures s.unidad_duracion == "meses" ==> DuracionCompleta(s) == NatToString(s.duracion) + " Meses"
  {
  }

  // ------------------------------------------------------------------ Pedido

  /** An order. Its id, client and creation time never change after creation
      (`fecha_pedido` is `auto_now_add`); its status and notes can. */
  class Pedido {
    const id: int
    const cliente: int
    const fecha_pedido: Timestamp
    var estado: string
    var observaciones: string

    constructor (id: int, cliente: int, fecha_pedido: Timestamp, estado: string, observaciones: string)
      ensures this.id == id && this.cliente == cliente && this.fecha_pedido == fecha_pedido
      ensures this.estado == estado && this.observaciones == observaciones
    {
      this.id := id;
      this.cliente := cliente;
      this.fecha_pedido := fecha_pedido;
      this.estado := estado;
      this.observaciones := observaciones;
    }
  }

  lemma EstadoPedidoChoicesUnique()
    ensures UniqueKeys(EstadoPedidoChoices)
  {
  }

  /** One of the six order states. */
  predicate IsEstado(e: string) {
    HasKey(EstadoPedidoChoices, e)
  }

  // -------------------------------------------------------------- line items

  /** A unit price counts as given when it is set and non-zero (Python truthiness). */
  predicate PriceGiven(current: Option<Cents>) {
    current.Some? && current.value != 0
  }

  /** The unit price a line item holds after `save()`: the one it had if it
      had one, otherwise the catalog price of the product or service. */
  function SnapshotPrice(current: Option<Cents>, catalog: Cents): Cents {
    if PriceGiven(current) then current.value else catalog
  }

  /** A given price survives saving whatever the catalog says, and a saved
      non-zero snapshot is not moved by a later save after a price change.
      A snapshot of zero is not fixed: the next save takes the current price. */
  lemma SnapshotStable(current: Option<Cents>, catalog: Cents, laterCatalog: Cents)
    ensures PriceGiven(current) ==> SnapshotPrice(current, catalog) == current.value
    ensures !PriceGiven(current) ==> SnapshotPrice(current, catalog) == catalog
    ensures SnapshotPrice(current, catalog) != 0 ==>
              SnapshotPrice(Some(SnapshotPrice(current, catalog)), laterCatalog) == SnapshotPrice(current, catalog)
    ensures SnapshotPrice(current, catalog) == 0 ==>
              SnapshotPrice(Some(SnapshotPrice(current, catalog)), laterCatalog) == laterCatalog
  {
  }

  /** A product bought in an order. */
  class ItemProductoPedido {
    var pedido: int
    var producto: ProductoHardware
    var cantidad: int
    var precio_unitario: Option<Cents>

    constructor (pedido: int, producto: ProductoHardware, cantidad: int, precio_unitario: Option<Cents>)
      ensures this.pedido == pedido && this.producto == producto
      ensures this.cantidad == cantidad && this.precio_unitario == precio_unitario
    {
      this.pedido := pedido;
      this.producto := producto;
      this.cantidad := cantidad;
      this.precio_unitario := precio_unitario;
    }

    /** `subtotal`: quantity times unit price. An item without a unit price
        has none (Python would fail multiplying by None). The subtotal is zero
        exactly when the quantity or the price is, which is what makes the
        zero test on totals in the views skip nothing of value. */
    function Subtotal(): (r: Cents)
      reads this
      requires precio_unitario.Some?
      ensures r == 0 <==> cantidad == 0 || precio_unitario.value == 0
      ensures cantidad >= 0 && precio_unitario.value >= 0 ==> r >= 0
    {
      cantidad * precio_unitario.value
    }

    /** `save()`: takes the product's current price as the unit price unless
        a non-zero one was given; nothing else changes. */
    method Save()
      modifies this`precio_unitario
      ensures precio_unitario == Some(SnapshotPrice(old(precio_unitario), producto.precio))
    {
      if !PriceGiven(precio_unitario) {
        precio_unitario := Some(producto.precio);
      }
    }
  }

  /** A service contracted in an order. */
  class ItemServicioPedido {
    var pedido: int
    var servicio: ServicioInformatico
    var cantidad: int
    var precio_unitario: Option<Cents>

    constructor (pedido: int, servicio: ServicioInformatico, cantidad: int, precio_unitario: Option<Cents>)
      ensures this.pedido == pedido && this.servicio == servicio
      ensures this.cantidad == cantidad && this.precio_unitario == precio_unitario
    {
      this.pedido := pedido;
      this.servicio := servicio;
      this.cantidad := cantidad;
      this.precio_unitario := precio_unitario;
    }

    /** `subtotal`: quantity times unit price, as for product lines. */
    function Subtotal(): (r: Cents)
      reads this
      requires precio_unitario.Some?
      ensures r == 0 <==> cantidad == 0 || precio_unitario.value == 0
      ensures cantidad >= 0 && precio_unitario.value >= 0 ==> r >= 0
    {
      cantidad * precio_unitario.value
    }

    /** `save()`: takes the service's current price as the unit price unless
        a non-zero one was given; nothing else changes. */
    method Save()
      modifies this`precio_unitario
      ensures precio_unitario == Some(SnapshotPrice(old(precio_unitario), servicio.precio))
    {
      if !PriceGiven(precio_unitario) {
        precio_unitario := Some(servicio.precio);
      }
    }
  }

  // ------------------------------------------------------------------ totals

  /** Every product line of order `pedido` has a unit price. */
  predicate ProductosPriced(pedido: int, items: seq<ItemProductoPedido>)
    reads items
  {
    forall i :: 0 <= i < |items| && items[i].pedido == pedido ==> items[i].precio_unitario.Some?
  }

  predicate ServiciosPriced(pedido: int, items: seq<ItemServicioPedido>)
    reads items
  {
    forall i :: 0 <= i < |items| && items[i].pedido == pedido ==> items[i].precio_unitario.Some?
  }

  /** The sum of the subtotals of the product lines of order `pedido`
      (`pedido.items_productos.all()` are the rows pointing at it). */
  function SumProductos(pedido: int, items: seq<ItemProductoPedido>): Cents
    reads items
    requires ProductosPriced(pedido, items)
    decreases |items|
  {
    if items == [] then 0
    else (if items[0].pedido == pedido then items[0].Subtotal() else 0) + SumProductos(pedido, items[1..])
  }

  function SumServicios(pedido: int, items: seq<ItemServicioPedido>): Cents
    reads items
    requires ServiciosPriced(pedido, items)
    decreases |items|
  {
    if items == [] then 0
    else (if items[0].pedido == pedido then items[0].Subtotal() else 0) + SumServicios(pedido, items[1..])
  }

  /** `total_pedido`: product subtotals plus service subtotals. */
  function TotalPedido(p: Pedido, productos: seq<ItemProductoPedido>, servicios: seq<ItemServicioPedido>): Cents
    reads productos, servicios
    requires ProductosPriced(p.id, productos) && ServiciosPriced(p.id, servicios)
  {
    SumProductos(p.id, productos) + SumServicios(p.id, servicios)
  }

  /** Lines of other orders contribute nothing. */
  lemma {:induction false} SumProductosNone(pedido: int, items: seq<ItemProductoPedido>)
    requires forall i :: 0 <= i < |items| ==> items[i].pedido != pedido
    ensures SumProductos(pedido, items) == 0
    decreases |items|
  {
    if items != [] {
      SumProductosNone(pedido, items[1..]);
    }
  }

  lemma {:induction false} SumServiciosNone(pedido: int, items: seq<ItemServicioPedido>)
    requires forall i :: 0 <= i < |items| ==> items[i].pedido != pedido
    ensures SumServicios(pedido, items) == 0
    decreases |items|
  {
    if items != [] {
      SumServiciosNone(pedido, items[1..]);
    }
  }

  /** An order without lines totals zero. */
  lemma TotalPedidoEmpty(p: Pedido, productos: seq<ItemProductoPedido>, servicios: seq<ItemServicioPedido>)
    requires forall i :: 0 <= i < |productos| ==> productos[i].pedido != p.id
    requires forall i :: 0 <= i < |servicios| ==> servicios[i].pedido != p.id
    ensures TotalPedido(p, productos, servicios) == 0
  {
    SumProductosNone(p.id, productos);
    SumServiciosNone(p.id, servicios);
  }

  /** Adding a line adds its subtotal to its own order's total and leaves
      every other order's total alone. */
  lemma {:induction false} SumProductosAppend(pedido: int, items: seq<ItemProductoPedido>, item: ItemProductoPedido)
    requires ProductosPriced(pedido, items + [item])
    ensures ProductosPriced(pedido, items)
    ensures item.pedido == pedido ==> item.precio_unitario.Some?
    ensures SumProductos(pedido, items + [item]) ==
              SumProductos(pedido, items) + (if item.pedido == pedido then item.Subtotal() else 0)
    decreases |items|
  {
    assert forall i :: 0 <= i < |items| ==> (items + [item])[i] == items[i];
    assert (items + [item])[|items|] == item;
    if items != [] {
      assert (items + [item])[1..] == items[1..] + [item];
      SumProductosAppend(pedido, items[1..], item);
    }
  }

  lemma {:induction false} SumServiciosAppend(pedido: int, items: seq<ItemServicioPedido>, item: ItemServicioPedido)
    requires ServiciosPriced(pedido, items + [item])
    ensures ServiciosPriced(pedido, items)
    ensures item.pedido == pedido ==> item.precio_unitario.Some?
    ensures SumServicios(pedido, items + [item]) ==
              SumServicios(pedido, items) + (if item.pedido == pedido then item.Subtotal() else 0)
    decreases |items|
  {
    assert forall i :: 0 <= i < |items| ==> (items + [item])[i] == items[i];
    assert (items + [item])[|items|] == item;
    if items != [] {
      assert (items + [item])[1..] == items[1..] + [item];
      SumServiciosAppend(pedido, items[1..], item);
    }
  }

  /** With non-negative quantities and unit prices, sums are non-negative. */
  lemma {:induction false} SumProductosNonNegative(pedido: int, items: seq<ItemProductoPedido>)
    requires ProductosPriced(pedido, items)
    requires forall i :: 0 <= i < |items| && items[i].pedido == pedido ==>
               items[i].cantidad >= 0 && items[i].precio_unitario.value >= 0
    ensures SumProductos(pedido, items) >= 0
    decreases |items|
  {
    if items != [] {
      SumProductosNonNegative(pedido, items[1..]);
    }
  }

  lemma {:induction false} SumServiciosNonNegative(pedido: int, items: seq<ItemServicioPedido>)
    requires ServiciosPriced(pedido, items)
    requires forall i :: 0 <= i < |items| && items[i].pedido == pedido ==>
               items[i].cantidad >= 0 && items[i].precio_unitario.value >= 0
    ensures SumServicios(pedido, items) >= 0
    decreases |items|
  {
    if items != [] {
      SumServiciosNonNegative(pedido, items[1..]);
    }
  }

  // -------------------------------------------------- unique-together rules

  /** The result of inserting a row into a table. */
  datatype Insertion<T> = Inserted(rows: seq<T>) | IntegrityError

  /** Two products clash on (nombre, empresa_proveedora). A product without
      a supplier clashes with none: in SQL, NULLs are never equal. */
  predicate ProductosClash(a: ProductoHardware, b: ProductoHardware) {
    a.nombre == b.nombre && a.empresa_proveedora.Some? && a.empresa_proveedora == b.empresa_proveedora
  }

  predicate ProductosUnique(table: seq<ProductoHardware>) {
    forall i, j :: 0 <= i < j < |table| ==> !ProductosClash(table[i], table[j])
  }

  /** Inserting a product row: refused when it clashes with an existing one. */
  function InsertProducto(table: seq<ProductoHardware>, p: ProductoHardware): Insertion<ProductoHardware> {
    if exists i :: 0 <= i < |table| && ProductosClash(table[i], p) then IntegrityError
    else Inserted(table + [p])
  }

  /** Insertion keeps the table free of clashes, and refuses exactly the clashing rows. */
  lemma InsertProductoKeepsUnique(table: seq<ProductoHardware>, p: ProductoHardware)
    requires ProductosUnique(table)
    ensures InsertProducto(table, p).Inserted? ==> ProductosUnique(InsertProducto(table, p).rows)
    ensures InsertProducto(table, p).IntegrityError? <==>
              (p.empresa_proveedora.Some? && exists i :: 0 <= i < |table| && table[i].nombre == p.nombre &&
                                                         table[i].empresa_proveedora == p.empresa_proveedora)
  {
    if InsertProducto(table, p).Inserted? {
      var t := table + [p];
      forall i, j | 0 <= i < j < |t| ensures !ProductosClash(t[i], t[j]) {
        if j == |table| {
          assert t[i] == table[i];
        } else {
          assert t[i] == table[i] && t[j] == table[j];
        }
      }
    }
  }

  /** The same product inserted twice: the second insertion fails when it
      names a supplier and succeeds when it does not. */
  lemma InsertProductoTwice(table: seq<ProductoHardware>, p: ProductoHardware)
    requires InsertProducto(table, p).Inserted?
    ensures p.empresa_proveedora.Some? ==> InsertProducto(InsertProducto(table, p).rows, p).IntegrityError?
    ensures p.empresa_proveedora.None? ==> InsertProducto(InsertProducto(table, p).rows, p).Inserted?
  {
    var t := table + [p];
    if p.empresa_proveedora.Some? {
      assert ProductosClash(t[|table|], p);
    }
  }

  /** Services clash on (nombre, empresa_proveedora); every service has a supplier. */
  predicate ServiciosClash(a: ServicioInformatico, b: ServicioInformatico) {
    a.nombre == b.nombre && a.empresa_proveedora == b.empresa_proveedora
  }

  predicate ServiciosUnique(table: seq<ServicioInformatico>) {
    forall i, j :: 0 <= i < j < |table| ==> !ServiciosClash(table[i], table[j])
  }

  function InsertServicio(table: seq<ServicioInformatico>, s: ServicioInformatico): Insertion<ServicioInformatico> {
    if exists i :: 0 <= i < |table| && ServiciosClash(table[i], s) then IntegrityError
    else Inserted(table + [s])
  }

  lemma InsertServicioKeepsUnique(table: seq<ServicioInformatico>, s: ServicioInformatico)
    requires ServiciosUnique(table)
    ensures InsertServicio(table, s).Inserted? ==> ServiciosUnique(InsertServicio(table, s).rows)
    ensures InsertServicio(table, s).Inserted? ==> InsertServicio(InsertServicio(table, s).rows, s).IntegrityError?
  {
    if InsertServicio(table, s).Inserted? {
      var t := table + [s];
      forall i, j | 0 <= i < j < |t| ensures !ServiciosClash(t[i], t[j]) {
        if j == |table| {
          assert t[i] == table[i];
        } else {
          assert t[i] == table[i] && t[j] == table[j];
        }
      }
      assert ServiciosClash(t[|table|], s);
    }
  }

  /** At most one product line per (order, product). */
  predicate ItemsProductoUnique(items: seq<ItemProductoPedido>)
    reads items
  {
    forall i, j :: 0 <= i < j < |items| ==>
      !(items[i].pedido == items[j].pedido && items[i].producto.id == items[j].producto.id)
  }

  /** Some line of `items` already puts product `producto` in order `pedido`. */
  predicate ItemProductoExists(items: seq<ItemProductoPedido>, pedido: int, producto: int)
    reads items
  {
    exists i :: 0 <= i < |items| && items[i].pedido == pedido && items[i].producto.id == producto
  }

  /** A new line keeps (order, product) unique exactly when no line has that pair yet. */
  lemma AddItemProductoKeepsUnique(items: seq<ItemProductoPedido>, item: ItemProductoPedido)
    requires ItemsProductoUnique(items)
    ensures ItemsProductoUnique(items + [item]) <==> !ItemProductoExists(items, item.pedido, item.producto.id)
  {
    var t := items + [item];
    if !ItemProductoExists(items, item.pedido, item.producto.id) {
      forall i, j | 0 <= i < j < |t|
        ensures !(t[i].pedido == t[j].pedido && t[i].producto.id == t[j].producto.id)
      {
        assert t[i] == items[i];
        if j < |items| {
          assert t[j] == items[j];
        }
      }
    } else {
      var i :| 0 <= i < |items| && items[i].pedido == item.pedido && items[i].producto.id == item.producto.id;
      assert t[i] == items[i] && t[|items|] == item;
    }
  }

  /** At most one service line per (order, service). */
  predicate ItemsServicioUnique(items: seq<ItemServicioPedido>)
    reads items
  {
    forall i, j :: 0 <= i < j < |items| ==>
      !(items[i].pedido == items[j].pedido && items[i].servicio.id == items[j].servicio.id)
  }

  predicate ItemServicioExists(items: seq<ItemServicioPedido>, pedido: int, servicio: int)
    reads items
  {
    exists i :: 0 <= i < |items| && items[i].pedido == pedido && items[i].servicio.id == servicio
  }

  lemma AddItemServicioKeepsUnique(items: seq<ItemServicioPedido>, item: ItemServicioPedido)
    requires ItemsServicioUnique(items)
    ensures ItemsServicioUnique(items + [item]) <==> !ItemServicioExists(items, item.pedido, item.servicio.id)
  {
    var t := items + [item];
    if !ItemServicioExists(items, item.pedido, item.servicio.id) {
      forall i, j | 0 <= i < j < |t|
        ensures !(t[i].pedido == t[j].pedido && t[i].servicio.id == t[j].servicio.id)
      {
        assert t[i] == items[i];
        if j < |items| {
          assert t[j] == items[j];
        }
      }
    } else {
      var i :| 0 <= i < |items| && items[i].pedido == item.pedido && items[i].servicio.id == item.servicio.id;
      assert t[i] == items[i] && t[|items|] == item;
    }
  }
}
