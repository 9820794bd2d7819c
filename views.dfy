/** The queries and computations of the views (SippApp/views.py): the list
    views' filter chains, the order status update, the supplier lookups
    that feed the order form, the price lookups, and the totals on the
    client page and in the orders report. Request parameters arrive already
    read: an absent text parameter is "", an absent id or date is None. */
module Views {

  import opened Optional
  import opened Text
  import opened Seqs
  import opened Models

  // ------------------------------------------------------------- orderings

  /** `order_by('nombre')` and `Meta.ordering = ['nombre']` for clients. */
  function ClienteLe(a: Cliente, b: Cliente): bool {
    LexLe(a.nombre, b.nombre)
  }

  /** `Meta.ordering = ['nombre']` for services. */
  function ServicioLe(a: ServicioInformatico, b: ServicioInformatico): bool {
    LexLe(a.nombre, b.nombre)
  }

  /** `Meta.ordering = ['tipo', 'nombre']` for products. */
  function ProductoLe(a: ProductoHardware, b: ProductoHardware): bool {
    if a.tipo == b.tipo then LexLe(a.nombre, b.nombre) else LexLe(a.tipo, b.tipo)
  }

  lemma ClientesComparable(s: seq<Cliente>)
    ensures TotalOn(s, ClienteLe)
  {
    forall i, j | 0 <= i < |s| && 0 <= j < |s| ensures ClienteLe(s[i], s[j]) || ClienteLe(s[j], s[i]) {
      LexLeTotal(s[i].nombre, s[j].nombre);
    }
  }

  lemma ServiciosComparable(s: seq<ServicioInformatico>)
    ensures TotalOn(s, ServicioLe)
  {
    forall i, j | 0 <= i < |s| && 0 <= j < |s| ensures ServicioLe(s[i], s[j]) || ServicioLe(s[j], s[i]) {
      LexLeTotal(s[i].nombre, s[j].nombre);
    }
  }

  lemma ProductosComparable(s: seq<ProductoHardware>)
    ensures TotalOn(s, ProductoLe)
  {
    forall i, j | 0 <= i < |s| && 0 <= j < |s| ensures ProductoLe(s[i], s[j]) || ProductoLe(s[j], s[i]) {
      LexLeTotal(s[i].nombre, s[j].nombre);
      LexLeTotal(s[i].tipo, s[j].tipo);
    }
  }

  lemma ClientesTransitive(s: seq<Cliente>)
    ensures TransitiveOn(s, ClienteLe)
  {
    forall i, j, k | 0 <= i < |s| && 0 <= j < |s| && 0 <= k < |s| && ClienteLe(s[i], s[j]) && ClienteLe(s[j], s[k])
      ensures ClienteLe(s[i], s[k])
    {
      LexLeTransitive(s[i].nombre, s[j].nombre, s[k].nombre);
    }
  }

  lemma ServiciosTransitive(s: seq<ServicioInformatico>)
    ensures TransitiveOn(s, ServicioLe)
  {
    forall i, j, k | 0 <= i < |s| && 0 <= j < |s| && 0 <= k < |s| && ServicioLe(s[i], s[j]) && ServicioLe(s[j], s[k])
      ensures ServicioLe(s[i], s[k])
    {
      LexLeTransitive(s[i].nombre, s[j].nombre, s[k].nombre);
    }
  }

  /** The (tipo, nombre) order is transitive: a type order that goes round
      and back to the same type forces the types in between to be equal. */
  lemma ProductoLeTransitive(a: ProductoHardware, b: ProductoHardware, c: ProductoHardware)
    requires ProductoLe(a, b) && ProductoLe(b, c)
    ensures ProductoLe(a, c)
  {
    if a.tipo == b.tipo && b.tipo == c.tipo {
      LexLeTransitive(a.nombre, b.nombre, c.nombre);
    } else if a.tipo != b.tipo && b.tipo != c.tipo {
      LexLeTransitive(a.tipo, b.tipo, c.tipo);
      if a.tipo == c.tipo {
        LexLeAntisymmetric(a.tipo, b.tipo);
      }
    }
  }

  lemma ProductosTransitive(s: seq<ProductoHardware>)
    ensures TransitiveOn(s, ProductoLe)
  {
    forall i, j, k | 0 <= i < |s| && 0 <= j < |s| && 0 <= k < |s| && ProductoLe(s[i], s[j]) && ProductoLe(s[j], s[k])
      ensures ProductoLe(s[i], s[k])
    {
      ProductoLeTransitive(s[i], s[j], s[k]);
    }
  }

  // ---------------------------------------------------------------- clients

  /** The client search: name, manager or e-mail contains the query. */
  predicate ClienteMatches(c: Cliente, search: string) {
    IContains(c.nombre, search) || IContains(c.encargado, search) || IContains(c.email_contacto, search)
  }

  /** `ClienteListView.get_queryset`. */
  function ClienteList(clientes: seq<Cliente>, search: string): (r: seq<Cliente>)
    ensures forall c :: c in r <==> c in clientes && (search == "" || ClienteMatches(c, search))
    ensures Sorted(r, ClienteLe)
    ensures multiset(r) <= multiset(clientes)
    ensures search == "" ==> multiset(r) == multiset(clientes)
  {
    var queryset := if search != "" then Filter(clientes, c => ClienteMatches(c, search)) else clientes;
    ClientesComparable(queryset);
    SortByMembers(queryset, ClienteLe);
    SortBy(queryset, ClienteLe)
  }

  // --------------------------------------------------------------- services

  /** The service search: name or description contains the query. */
  predicate ServicioMatches(s: ServicioInformatico, search: string) {
    IContains(s.nombre, search) || IContains(s.descripcion, search)
  }

  /** `ServicioInformaticoListView.get_queryset`. */
  function ServicioList(servicios: seq<ServicioInformatico>, search: string): (r: seq<ServicioInformatico>)
    ensures forall s :: s in r <==> s in servicios && s.activo && (search == "" || ServicioMatches(s, search))
    ensures Sorted(r, ServicioLe)
    ensures multiset(r) <= multiset(servicios)
  {
    var activo := (s: ServicioInformatico) => s.activo;
    var matches := (s: ServicioInformatico) => ServicioMatches(s, search);
    var activos := Filter(servicios, activo);
    FilterMembers(servicios, activo);
    FilterMembers(activos, matches);
    var queryset := if search != "" then Filter(activos, matches) else activos;
    assert forall s :: s in queryset <==> s in servicios && s.activo && (search == "" || ServicioMatches(s, search));
    ServiciosComparable(queryset);
    SortByElements(queryset, ServicioLe);
    SortBy(queryset, ServicioLe)
  }

  // --------------------------------------------------------------- products

  /** A row of products LEFT OUTER JOIN characteristics. */
  datatype JoinRow = JoinRow(producto: ProductoHardware, caracteristica: Option<CaracteristicaProductoHardware>)

  /** The rows one product contributes to the join: one per characteristic,
      or a single row without one. */
  function RowsOf(p: ProductoHardware): (r: seq<JoinRow>)
    ensures forall row :: row in r <==>
              (row.producto == p &&
               if p.caracteristicas == [] then row.caracteristica.None?
               else row.caracteristica.Some? && row.caracteristica.value in p.caracteristicas)
  {
    if p.caracteristicas == [] then [JoinRow(p, None)]
    else
      var r := seq(|p.caracteristicas|, i requires 0 <= i < |p.caracteristicas| => JoinRow(p, Some(p.caracteristicas[i])));
      assert forall row :: row in r ==> row.producto == p && row.caracteristica.Some? && row.caracteristica.value in p.caracteristicas;
      assert forall c :: c in p.caracteristicas ==> JoinRow(p, Some(c)) in r by {
        forall c | c in p.caracteristicas ensures JoinRow(p, Some(c)) in r {
          var i :| 0 <= i < |p.caracteristicas| && p.caracteristicas[i] == c;
          assert r[i] == JoinRow(p, Some(c));
        }
      }
      r
  }

  function Join(ps: seq<ProductoHardware>): (r: seq<JoinRow>)
    ensures forall row :: row in r <==> row.producto in ps && row in RowsOf(row.producto)
  {
    if ps == [] then [] else RowsOf(ps[0]) + Join(ps[1..])
  }

  /** The search condition on one joined row. */
  predicate RowMatches(row: JoinRow, search: string) {
    || IContains(row.producto.nombre, search)
    || IContains(row.producto.tipo_personalizado, search)
    || (row.caracteristica.Some? &&
        (IContains(row.caracteristica.value.attr, search) || IContains(row.caracteristica.value.valor, search)))
  }

  /** The product search: name, custom type, or some characteristic's
      attribute or value contains the query. */
  predicate ProductoMatches(p: ProductoHardware, search: string) {
    || IContains(p.nombre, search)
    || IContains(p.tipo_personalizado, search)
    || exists c :: c in p.caracteristicas && (IContains(c.attr, search) || IContains(c.valor, search))
  }

  function Productos(rows: seq<JoinRow>): (r: seq<ProductoHardware>)
    ensures forall p :: p in r <==> exists row :: row in rows && row.producto == p
  {
    if rows == [] then [] else [rows[0].producto] + Productos(rows[1..])
  }

  /** The joined rows that satisfy the search condition. */
  function MatchingRows(rows: seq<JoinRow>, search: string): (r: seq<JoinRow>)
    ensures forall row :: row in r <==> row in rows && RowMatches(row, search)
  {
    if rows == [] then []
    else if RowMatches(rows[0], search) then [rows[0]] + MatchingRows(rows[1..], search)
    else MatchingRows(rows[1..], search)
  }

  /** A product matches the search exactly when one of its joined rows does. */
  lemma ProductoMatchesRow(p: ProductoHardware, search: string)
    ensures ProductoMatches(p, search) <==> exists row :: row in RowsOf(p) && RowMatches(row, search)
  {
    if ProductoMatches(p, search) {
      var row: JoinRow;
      if IContains(p.nombre, search) || IContains(p.tipo_personalizado, search) || p.caracteristicas == [] {
        row := if p.caracteristicas == [] then JoinRow(p, None) else JoinRow(p, Some(p.caracteristicas[0]));
      } else {
        var c :| c in p.caracteristicas && (IContains(c.attr, search) || IContains(c.valor, search));
        row := JoinRow(p, Some(c));
      }
      assert row in RowsOf(p) && RowMatches(row, search);
    }
  }

  /** The search step: filter the joined rows, keep the product columns, `.distinct()`. */
  function SearchProductos(ps: seq<ProductoHardware>, search: string): (r: seq<ProductoHardware>)
    ensures forall p :: p in r <==> p in ps && ProductoMatches(p, search)
    ensures NoDup(r)
  {
    var rows := MatchingRows(Join(ps), search);
    DedupMembers(Productos(rows));
    assert forall p :: p in ps ==> (ProductoMatches(p, search) <==> exists row :: row in rows && row.producto == p) by {
      forall p | p in ps ensures ProductoMatches(p, search) <==> exists row :: row in rows && row.producto == p {
        ProductoMatchesRow(p, search);
      }
    }
    assert forall row :: row in rows ==> row.producto in ps && ProductoMatches(row.producto, search) by {
      forall row | row in rows ensures row.producto in ps && ProductoMatches(row.producto, search) {
        ProductoMatchesRow(row.producto, search);
      }
    }
    Dedup(Productos(rows))
  }

  // Each filter of the product list, as one refinement step.

  function SoloActivos(ps: seq<ProductoHardware>): (r: seq<ProductoHardware>)
    ensures forall p :: p in r <==> p in ps && p.activo
    ensures NoDup(ps) ==> NoDup(r)
  {
    var activo := (p: ProductoHardware) => p.activo;
    FilterMembers(ps, activo);
    if NoDup(ps) then FilterNoDup(ps, activo); Filter(ps, activo) else Filter(ps, activo)
  }

  function PorTipo(ps: seq<ProductoHardware>, tipo: string): (r: seq<ProductoHardware>)
    ensures forall p :: p in r <==> p in ps && (tipo == "" || p.tipo == tipo)
    ensures NoDup(ps) ==> NoDup(r)
  {
    var deTipo := (p: ProductoHardware) => p.tipo == tipo;
    FilterMembers(ps, deTipo);
    if tipo == "" then ps
    else if NoDup(ps) then FilterNoDup(ps, deTipo); Filter(ps, deTipo) else Filter(ps, deTipo)
  }

  function PorCategoria(ps: seq<ProductoHardware>, categoria: Option<int>): (r: seq<ProductoHardware>)
    ensures forall p :: p in r <==> p in ps && (categoria.None? || p.categoria == categoria)
    ensures NoDup(ps) ==> NoDup(r)
  {
    var deCategoria := (p: ProductoHardware) => p.categoria == categoria;
    FilterMembers(ps, deCategoria);
    if categoria.None? then ps
    else if NoDup(ps) then FilterNoDup(ps, deCategoria); Filter(ps, deCategoria) else Filter(ps, deCategoria)
  }

  function PorEmpresa(ps: seq<ProductoHardware>, empresa: Option<int>): (r: seq<ProductoHardware>)
    ensures forall p :: p in r <==> p in ps && (empresa.None? || p.empresa_proveedora == empresa)
    ensures NoDup(ps) ==> NoDup(r)
  {
    var deEmpresa := (p: ProductoHardware) => p.empresa_proveedora == empresa;
    FilterMembers(ps, deEmpresa);
    if empresa.None? then ps
    else if NoDup(ps) then FilterNoDup(ps, deEmpresa); Filter(ps, deEmpresa) else Filter(ps, deEmpresa)
  }

  function PorBusqueda(ps: seq<ProductoHardware>, search: string): (r: seq<ProductoHardware>)
    ensures forall p :: p in r <==> p in ps && (search == "" || ProductoMatches(p, search))
    ensures search != "" ==> NoDup(r)
    ensures NoDup(ps) ==> NoDup(r)
  {
    if search == "" then ps else SearchProductos(ps, search)
  }

  /** Every filter of the product list view. */
  predicate ProductoSelected(p: ProductoHardware, tipo: string, categoria: Option<int>,
                             empresa: Option<int>, search: string) {
    && p.activo
    && (tipo == "" || p.tipo == tipo)
    && (categoria.None? || p.categoria == categoria)
    && (empresa.None? || p.empresa_proveedora == empresa)
    && (search == "" || ProductoMatches(p, search))
  }

  /** `ProductoHardwareListView.get_queryset`: active products, narrowed by
      each filter that is given, searched, de-duplicated when searched, in
      (tipo, nombre) order. */
  function ProductoList(productos: seq<ProductoHardware>, tipo: string, categoria: Option<int>,
                        empresa: Option<int>, search: string): (r: seq<ProductoHardware>)
    ensures forall p :: p in r <==> p in productos && ProductoSelected(p, tipo, categoria, empresa, search)
    ensures Sorted(r, ProductoLe)
    ensures search != "" ==> NoDup(r)
    ensures NoDup(productos) ==> NoDup(r)
  {
    var queryset := PorBusqueda(PorEmpresa(PorCategoria(PorTipo(SoloActivos(productos), tipo), categoria), empresa), search);
    ProductosComparable(queryset);
    SortByMembers(queryset, ProductoLe);
    SortByNoDup(queryset, ProductoLe);
    SortBy(queryset, ProductoLe)
  }

  // ----------------------------------------------------------------- orders

  /** `order_by('-fecha_pedido')`: newest first. */
  function PedidoLe(a: Pedido, b: Pedido): bool {
    a.fecha_pedido >= b.fecha_pedido
  }

  lemma PedidosComparable(s: seq<Pedido>)
    ensures TotalOn(s, PedidoLe)
  {
  }

  lemma PedidosTransitive(s: seq<Pedido>)
    ensures TransitiveOn(s, PedidoLe)
  {
  }

  /** The filters of the order list; a filter that is not given keeps every order.
      The date bounds compare the calendar day of `fecha_pedido`, both inclusive. */
  predicate PedidoSelected(p: Pedido, estado: string, cliente: Option<int>,
                           desde: Option<Date>, hasta: Option<Date>)
    reads p
  {
    && (estado == "" || p.estado == estado)
    && (cliente.None? || p.cliente == cliente.value)
    && (desde.None? || DateOf(p.fecha_pedido) >= desde.value)
    && (hasta.None? || DateOf(p.fecha_pedido) <= hasta.value)
  }

  function FiltraPedidos(ps: seq<Pedido>, estado: string, cliente: Option<int>,
                         desde: Option<Date>, hasta: Option<Date>): (r: seq<Pedido>)
    reads ps
    ensures forall i :: 0 <= i < |r| ==> r[i] in ps && PedidoSelected(r[i], estado, cliente, desde, hasta)
    ensures forall i :: 0 <= i < |ps| && PedidoSelected(ps[i], estado, cliente, desde, hasta) ==> ps[i] in r
    ensures multiset(r) <= multiset(ps)
    ensures estado == "" && cliente.None? && desde.None? && hasta.None? ==> r == ps
  {
    if ps == [] then []
    else
      assert ps == [ps[0]] + ps[1..];
      var rest := FiltraPedidos(ps[1..], estado, cliente, desde, hasta);
      if PedidoSelected(ps[0], estado, cliente, desde, hasta) then [ps[0]] + rest else rest
  }

  /** `PedidoListView.get_queryset`. */
  function PedidoList(ps: seq<Pedido>, estado: string, cliente: Option<int>,
                      desde: Option<Date>, hasta: Option<Date>): (r: seq<Pedido>)
    reads ps
    ensures forall i :: 0 <= i < |r| ==> r[i] in ps && PedidoSelected(r[i], estado, cliente, desde, hasta)
    ensures forall i :: 0 <= i < |ps| && PedidoSelected(ps[i], estado, cliente, desde, hasta) ==> ps[i] in r
    ensures Sorted(r, PedidoLe)
    ensures multiset(r) <= multiset(ps)
    ensures estado == "" && cliente.None? && desde.None? && hasta.None? ==> multiset(r) == multiset(ps)
  {
    var queryset := FiltraPedidos(ps, estado, cliente, desde, hasta);
    PedidosComparable(queryset);
    SortByMembers(queryset, PedidoLe);
    SortBy(queryset, PedidoLe)
  }

  /** Every list view is ordered pairwise, not only between neighbours. */
  lemma ListsOrderedPairwise(clientes: seq<Cliente>, servicios: seq<ServicioInformatico>,
                             productos: seq<ProductoHardware>, pedidos: seq<Pedido>, search: string,
                             tipo: string, categoria: Option<int>, empresa: Option<int>,
                             estado: string, cliente: Option<int>, desde: Option<Date>, hasta: Option<Date>)
    ensures var r := ClienteList(clientes, search);
            forall i, j :: 0 <= i < j < |r| ==> LexLe(r[i].nombre, r[j].nombre)
    ensures var r := ServicioList(servicios, search);
            forall i, j :: 0 <= i < j < |r| ==> LexLe(r[i].nombre, r[j].nombre)
    ensures var r := ProductoList(productos, tipo, categoria, empresa, search);
            forall i, j :: 0 <= i < j < |r| ==> ProductoLe(r[i], r[j])
    ensures var r := PedidoList(pedidos, estado, cliente, desde, hasta);
            forall i, j :: 0 <= i < j < |r| ==> r[i].fecha_pedido >= r[j].fecha_pedido
  {
    var cs := ClienteList(clientes, search);
    ClientesTransitive(cs);
    SortedPairwise(cs, ClienteLe);
    var ss := ServicioList(servicios, search);
    ServiciosTransitive(ss);
    SortedPairwise(ss, ServicioLe);
    var ps := ProductoList(productos, tipo, categoria, empresa, search);
    ProductosTransitive(ps);
    SortedPairwise(ps, ProductoLe);
    var rs := PedidoList(pedidos, estado, cliente, desde, hasta);
    PedidosTransitive(rs);
    SortedPairwise(rs, PedidoLe);
  }

  /** A date range that ends before it starts selects no order. */
  lemma PedidoListEmptyRange(ps: seq<Pedido>, estado: string, cliente: Option<int>, desde: Date, hasta: Date)
    requires desde > hasta
    ensures PedidoList(ps, estado, cliente, Some(desde), Some(hasta)) == []
  {
  }

  // ---------------------------------------------------------- status update

  /** `get_object_or_404(Pedido, pk=pk)`: the order with that id, if any. */
  function FindPedido(ps: seq<Pedido>, pk: int): (r: Option<Pedido>)
    ensures r.None? <==> forall i :: 0 <= i < |ps| ==> ps[i].id != pk
    ensures r.Some? ==> r.value in ps && r.value.id == pk
  {
    if ps == [] then None
    else if ps[0].id == pk then Some(ps[0])
    else FindPedido(ps[1..], pk)
  }

  /** What the status update answers: a 404, or a redirect to the order
      with a success or an error message. */
  datatype EstadoOutcome =
    | PedidoNotFound
    | EstadoActualizado(mensaje: string)
    | EstadoInvalido(mensaje: string)

  const EstadoInvalidoMessage: string := "Estado inv\U{e1}lido."

  function EstadoActualizadoMessage(estado: string): string {
    "Estado del pedido actualizado a " + Display(EstadoPedidoChoices, estado) + "."
  }

  /** `PedidoEstadoUpdateView.post`: sets the order's status when the posted
      value is one of the six states; any other value, or none, leaves every
      order as it was. */
  method PostEstado(ps: seq<Pedido>, pk: int, nuevo: Option<string>) returns (outcome: EstadoOutcome)
    modifies ps
    ensures outcome.PedidoNotFound? <==> FindPedido(ps, pk).None?
    ensures outcome.EstadoActualizado? <==> FindPedido(ps, pk).Some? && nuevo.Some? && IsEstado(nuevo.value)
    ensures outcome.EstadoActualizado? ==>
              FindPedido(ps, pk).value.estado == nuevo.value &&
              outcome.mensaje == EstadoActualizadoMessage(nuevo.value)
    ensures outcome.EstadoInvalido? ==> outcome.mensaje == EstadoInvalidoMessage
    ensures forall p :: p in ps && !(outcome.EstadoActualizado? && p == FindPedido(ps, pk).value) ==>
              p.estado == old(p.estado)
    ensures forall p :: p in ps ==> p.observaciones == old(p.observaciones)
    ensures (forall p :: p in ps ==> IsEstado(old(p.estado))) ==> forall p :: p in ps ==> IsEstado(p.estado)
  {
    var found := FindPedido(ps, pk);
    if found.None? {
      return PedidoNotFound;
    }
    var pedido := found.value;
    if nuevo.Some? && IsEstado(nuevo.value) {
      pedido.estado := nuevo.value;
      outcome := EstadoActualizado(EstadoActualizadoMessage(nuevo.value));
    } else {
      outcome := EstadoInvalido(EstadoInvalidoMessage);
    }
  }

  // ------------------------------------------------------- supplier lookups

  /** The answer of an AJAX endpoint: a JSON body, a 404, or no response at
      all (the endpoints only answer GET; for another method the view returns
      None, which Django turns into a server error). */
  datatype Reply<T> = Json(body: T) | NotFound404 | NoReply

  /** One entry of `api_get_productos_empresa`'s list. */
  datatype ProductoEntry = ProductoEntry(id: int, nombre: string, precio: string, tipo_final: string)

  /** `tipo_final`: the custom type for "otros", even when it is empty, and
      the type's label otherwise. */
  function TipoFinal(p: ProductoHardware): string {
    if p.tipo == "otros" then p.tipo_personalizado else Display(TipoProductoChoices, p.tipo)
  }

  /** The endpoint agrees with `tipo_seleccion` except for an "otros" product
      without a custom type, which the endpoint shows as "" and the model as "Otros". */
  lemma TipoFinalVsSeleccion(p: ProductoHardware)
    ensures TipoFinal(p) == TipoSeleccion(p) <==> !(p.tipo == "otros" && p.tipo_personalizado == "")
    ensures p.tipo == "otros" && p.tipo_personalizado == "" ==> TipoFinal(p) == "" && TipoSeleccion(p) == "Otros"
  {
    TipoSeleccionCases(p);
  }

  function ProductoEntryOf(p: ProductoHardware): ProductoEntry {
    ProductoEntry(p.id, p.nombre, FormatCents(p.precio), TipoFinal(p))
  }

  predicate OfreceProducto(p: ProductoHardware, empresa: int) {
    p.empresa_proveedora == Some(empresa) && p.activo
  }

  /** The active products of a supplier, in the model's (tipo, nombre) order. */
  function ProductosDeEmpresa(ps: seq<ProductoHardware>, empresa: int): (r: seq<ProductoHardware>)
    ensures forall p :: p in r <==> p in ps && OfreceProducto(p, empresa)
    ensures Sorted(r, ProductoLe)
    ensures multiset(r) <= multiset(ps)
  {
    var ofrece := (p: ProductoHardware) => OfreceProducto(p, empresa);
    var queryset := Filter(ps, ofrece);
    FilterMembers(ps, ofrece);
    ProductosComparable(queryset);
    SortByMembers(queryset, ProductoLe);
    SortBy(queryset, ProductoLe)
  }

  /** The loop of the endpoint: one entry per listed producto, in order.
      The prices read back, and the entries are exactly those of the listed productos. */
  method ProductoEntries(productos: seq<ProductoHardware>) returns (list: seq<ProductoEntry>)
    ensures |list| == |productos|
    ensures forall i :: 0 <= i < |list| ==>
              list[i] == ProductoEntryOf(productos[i]) && ParseCents(list[i].precio) == Some(productos[i].precio)
    ensures forall e :: e in list <==> exists x :: x in productos && e == ProductoEntryOf(x)
  {
    list := [];
    for k := 0 to |productos|
      invariant |list| == k
      invariant forall i :: 0 <= i < k ==>
                  list[i] == ProductoEntryOf(productos[i]) && ParseCents(list[i].precio) == Some(productos[i].precio)
    {
      FormatCentsRoundTrip(productos[k].precio);
      list := list + [ProductoEntryOf(productos[k])];
    }
    MapMembers(productos, list, ProductoEntryOf);
  }

  /** `api_get_productos_empresa`: one entry per active product of the
      supplier, in order; each entry's price reads back as the product's price. */
  method ApiGetProductosEmpresa(ps: seq<ProductoHardware>, empresa: int, isGet: bool)
    returns (r: Reply<seq<ProductoEntry>>)
    ensures r.NoReply? <==> !isGet
    ensures !r.NotFound404?
    ensures r.Json? ==> |r.body| == |ProductosDeEmpresa(ps, empresa)|
    ensures r.Json? ==> forall i :: 0 <= i < |r.body| ==>
              r.body[i] == ProductoEntryOf(ProductosDeEmpresa(ps, empresa)[i]) &&
              ParseCents(r.body[i].precio) == Some(ProductosDeEmpresa(ps, empresa)[i].precio)
    ensures r.Json? ==> forall e :: e in r.body <==> exists p :: p in ProductosDeEmpresa(ps, empresa) && e == ProductoEntryOf(p)
  {
    if !isGet {
      return NoReply;
    }
    var productos := ProductosDeEmpresa(ps, empresa);
    var list := ProductoEntries(productos);
    return Json(list);
  }

  /** One entry of `api_get_servicios_empresa`'s list. */
  datatype ServicioEntry = ServicioEntry(id: int, nombre: string, precio: string, duracion_completa: string)

  /** The endpoint's duration text: the duration, a space, the stored unit key. */
  function DuracionApi(s: ServicioInformatico): string {
    NatToString(s.duracion) + " " + s.unidad_duracion
  }

  /** The endpoint's text differs from the model's `duracion_completa`
      exactly when the unit is one of the choices (it shows "3 dias" where
      the model shows "3 Días"). */
  lemma DuracionApiVsCompleta(s: ServicioInformatico)
    ensures DuracionApi(s) == DuracionCompleta(s) <==> !HasKey(UnidadDuracionChoices, s.unidad_duracion)
  {
    var prefix := NatToString(s.duracion) + " ";
    var shown := Display(UnidadDuracionChoices, s.unidad_duracion);
    assert DuracionApi(s) == prefix + s.unidad_duracion;
    assert DuracionCompleta(s) == prefix + shown;
    if HasKey(UnidadDuracionChoices, s.unidad_duracion) {
      assert shown != s.unidad_duracion by {
        var i :| 0 <= i < |UnidadDuracionChoices| && UnidadDuracionChoices[i].0 == s.unidad_duracion;
        DisplayOfChoice(UnidadDuracionChoices, i);
      }
      if DuracionApi(s) == DuracionCompleta(s) {
        PrefixCancel(prefix, s.unidad_duracion, shown);
      }
    }
  }

  lemma PrefixCancel(prefix: string, a: string, b: string)
    requires prefix + a == prefix + b
    ensures a == b
  {
    assert a == (prefix + a)[|prefix|..];
    assert b == (prefix + b)[|prefix|..];
  }

  function ServicioEntryOf(s: ServicioInformatico): ServicioEntry {
    ServicioEntry(s.id, s.nombre, FormatCents(s.precio), DuracionApi(s))
  }

  predicate OfreceServicio(s: ServicioInformatico, empresa: int) {
    s.empresa_proveedora == empresa && s.activo
  }

  /** The active services of a supplier, in the model's nombre order. */
  function ServiciosDeEmpresa(ss: seq<ServicioInformatico>, empresa: int): (r: seq<ServicioInformatico>)
    ensures forall s :: s in r <==> s in ss && OfreceServicio(s, empresa)
    ensures Sorted(r, ServicioLe)
    ensures multiset(r) <= multiset(ss)
  {
    var ofrece := (s: ServicioInformatico) => OfreceServicio(s, empresa);
    var queryset := Filter(ss, ofrece);
    FilterMembers(ss, ofrece);
    ServiciosComparable(queryset);
    SortByMembers(queryset, ServicioLe);
    SortBy(queryset, ServicioLe)
  }

  /** The loop of the endpoint: one entry per listed servicio, in order.
      The prices read back, and the entries are exactly those of the listed servicios. */
  method ServicioEntries(servicios: seq<ServicioInformatico>) returns (list: seq<ServicioEntry>)
    ensures |list| == |servicios|
    ensures forall i :: 0 <= i < |list| ==>
              list[i] == ServicioEntryOf(servicios[i]) && ParseCents(list[i].precio) == Some(servicios[i].precio)
    ensures forall e :: e in list <==> exists x :: x in servicios && e == ServicioEntryOf(x)
  {
    list := [];
    for k := 0 to |servicios|
      invariant |list| == k
      invariant forall i :: 0 <= i < k ==>
                  list[i] == ServicioEntryOf(servicios[i]) && ParseCents(list[i].precio) == Some(servicios[i].precio)
    {
      FormatCentsRoundTrip(servicios[k].precio);
      list := list + [ServicioEntryOf(servicios[k])];
    }
    MapMembers(servicios, list, ServicioEntryOf);
  }

  /** `api_get_servicios_empresa`: one entry per active service of the
      supplier, in order, with a price that reads back as the service's. */
  method ApiGetServiciosEmpresa(ss: seq<ServicioInformatico>, empresa: int, isGet: bool)
    returns (r: Reply<seq<ServicioEntry>>)
    ensures r.NoReply? <==> !isGet
    ensures !r.NotFound404?
    ensures r.Json? ==> |r.body| == |ServiciosDeEmpresa(ss, empresa)|
    ensures r.Json? ==> forall i :: 0 <= i < |r.body| ==>
              r.body[i] == ServicioEntryOf(ServiciosDeEmpresa(ss, empresa)[i]) &&
              ParseCents(r.body[i].precio) == Some(ServiciosDeEmpresa(ss, empresa)[i].precio)
    ensures r.Json? ==> forall e :: e in r.body <==> exists s :: s in ServiciosDeEmpresa(ss, empresa) && e == ServicioEntryOf(s)
  {
    if !isGet {
      return NoReply;
    }
    var servicios := ServiciosDeEmpresa(ss, empresa);
    var list := ServicioEntries(servicios);
    return Json(list);
  }

  // ---------------------------------------------------------- price lookups

  /** `get_object_or_404(ProductoHardware, pk=id, activo=True)`. */
  function FindProductoActivo(ps: seq<ProductoHardware>, id: int): (r: Option<ProductoHardware>)
    ensures r.None? <==> forall i :: 0 <= i < |ps| ==> !(ps[i].id == id && ps[i].activo)
    ensures r.Some? ==> r.value in ps && r.value.id == id && r.value.activo
  {
    if ps == [] then None
    else if ps[0].id == id && ps[0].activo then Some(ps[0])
    else FindProductoActivo(ps[1..], id)
  }

  function FindServicioActivo(ss: seq<ServicioInformatico>, id: int): (r: Option<ServicioInformatico>)
    ensures r.None? <==> forall i :: 0 <= i < |ss| ==> !(ss[i].id == id && ss[i].activo)
    ensures r.Some? ==> r.value in ss && r.value.id == id && r.value.activo
  {
    if ss == [] then None
    else if ss[0].id == id && ss[0].activo then Some(ss[0])
    else FindServicioActivo(ss[1..], id)
  }

  /** `api_get_precio_producto`: the price of an active product, 404 for an
      unknown or inactive one. */
  function ApiGetPrecioProducto(ps: seq<ProductoHardware>, id: int, isGet: bool): (r: Reply<string>)
    ensures r.NoReply? <==> !isGet
    ensures r.NotFound404? <==> isGet && forall i :: 0 <= i < |ps| ==> !(ps[i].id == id && ps[i].activo)
    ensures r.Json? ==> exists i :: 0 <= i < |ps| && ps[i].id == id && ps[i].activo &&
                          r.body == FormatCents(ps[i].precio) && ParseCents(r.body) == Some(ps[i].precio)
  {
    if !isGet then NoReply
    else match FindProductoActivo(ps, id)
      case None => NotFound404
      case Some(p) =>
        FormatCentsRoundTrip(p.precio);
        var i :| 0 <= i < |ps| && ps[i] == p;
        Json(FormatCents(p.precio))
  }

  /** `api_get_precio_servicio`: the price of an active service, 404 otherwise. */
  function ApiGetPrecioServicio(ss: seq<ServicioInformatico>, id: int, isGet: bool): (r: Reply<string>)
    ensures r.NoReply? <==> !isGet
    ensures r.NotFound404? <==> isGet && forall i :: 0 <= i < |ss| ==> !(ss[i].id == id && ss[i].activo)
    ensures r.Json? ==> exists i :: 0 <= i < |ss| && ss[i].id == id && ss[i].activo &&
                          r.body == FormatCents(ss[i].precio) && ParseCents(r.body) == Some(ss[i].precio)
  {
    if !isGet then NoReply
    else match FindServicioActivo(ss, id)
      case None => NotFound404
      case Some(s) =>
        FormatCentsRoundTrip(s.precio);
        var i :| 0 <= i < |ss| && ss[i] == s;
        Json(FormatCents(s.precio))
  }

  // ---------------------------------------------------- client page totals

  /** Every line of every listed order has a unit price, so `total_pedido` is defined. */
  predicate AllPriced(ps: seq<Pedido>, productos: seq<ItemProductoPedido>, servicios: seq<ItemServicioPedido>)
    reads productos, servicios
  {
    forall p :: p in ps ==> ProductosPriced(p.id, productos) && ServiciosPriced(p.id, servicios)
  }

  /** The plain sum of the orders' totals. */
  function SumTotales(ps: seq<Pedido>, productos: seq<ItemProductoPedido>, servicios: seq<ItemServicioPedido>): Cents
    reads productos, servicios
    requires AllPriced(ps, productos, servicios)
    decreases |ps|
  {
    if ps == [] then 0
    else
      assert ps[0] in ps;
      TotalPedido(ps[0], productos, servicios) + SumTotales(ps[1..], productos, servicios)
  }

  /** `sum(pedido.total_pedido for pedido in pedidos if pedido.total_pedido)`:
      skipping the orders whose total is zero does not change the sum. */
  function TotalGastado(ps: seq<Pedido>, productos: seq<ItemProductoPedido>, servicios: seq<ItemServicioPedido>): (r: Cents)
    reads productos, servicios
    requires AllPriced(ps, productos, servicios)
    ensures r == SumTotales(ps, productos, servicios)
    decreases |ps|
  {
    if ps == [] then 0
    else
      assert ps[0] in ps;
      var t := TotalPedido(ps[0], productos, servicios);
      (if t != 0 then t else 0) + TotalGastado(ps[1..], productos, servicios)
  }

  /** `cliente.pedidos.all().order_by('-fecha_pedido')`. */
  function PedidosDeCliente(ps: seq<Pedido>, cliente: int): (r: seq<Pedido>)
    ensures forall i :: 0 <= i < |r| ==> r[i] in ps && r[i].cliente == cliente
    ensures forall i :: 0 <= i < |ps| && ps[i].cliente == cliente ==> ps[i] in r
    ensures Sorted(r, PedidoLe)
  {
    var deCliente := (p: Pedido) => p.cliente == cliente;
    var queryset := Filter(ps, deCliente);
    PedidosComparable(queryset);
    SortByMembers(queryset, PedidoLe);
    SortBy(queryset, PedidoLe)
  }

  /** `presupuesto_restante` on the client page: the budget less what the
      client's orders add up to (the guard on a zero total changes nothing). */
  function PresupuestoRestante(c: Cliente, ps: seq<Pedido>, productos: seq<ItemProductoPedido>,
                               servicios: seq<ItemServicioPedido>): (r: Cents)
    reads productos, servicios
    requires AllPriced(ps, productos, servicios)
    ensures r == c.presupuesto - SumTotales(PedidosDeCliente(ps, c.id), productos, servicios)
  {
    var pedidos := PedidosDeCliente(ps, c.id);
    assert AllPriced(pedidos, productos, servicios) by {
      forall p | p in pedidos ensures ProductosPriced(p.id, productos) && ServiciosPriced(p.id, servicios) {
        var i :| 0 <= i < |pedidos| && pedidos[i] == p;
      }
    }
    var gastado := TotalGastado(pedidos, productos, servicios);
    if gastado != 0 then c.presupuesto - gastado else c.presupuesto
  }

  /** Line items with non-negative quantities and prices. */
  predicate ItemsNonNegative(productos: seq<ItemProductoPedido>, servicios: seq<ItemServicioPedido>)
    reads productos, servicios
  {
    && (forall i :: 0 <= i < |productos| && productos[i].precio_unitario.Some? ==>
          productos[i].cantidad >= 0 && productos[i].precio_unitario.value >= 0)
    && (forall i :: 0 <= i < |servicios| && servicios[i].precio_unitario.Some? ==>
          servicios[i].cantidad >= 0 && servicios[i].precio_unitario.value >= 0)
  }

  lemma {:induction false} SumTotalesNonNegative(ps: seq<Pedido>, productos: seq<ItemProductoPedido>,
                                                   servicios: seq<ItemServicioPedido>)
    requires AllPriced(ps, productos, servicios)
    requires ItemsNonNegative(productos, servicios)
    ensures SumTotales(ps, productos, servicios) >= 0
    decreases |ps|
  {
    if ps != [] {
      assert ps[0] in ps;
      SumProductosNonNegative(ps[0].id, productos);
      SumServiciosNonNegative(ps[0].id, servicios);
      assert AllPriced(ps[1..], productos, servicios) by {
        forall p | p in ps[1..] ensures ProductosPriced(p.id, productos) && ServiciosPriced(p.id, servicios) {
          assert p in ps;
        }
      }
      SumTotalesNonNegative(ps[1..], productos, servicios);
    }
  }

  /** With non-negative quantities and prices the remaining budget never
      exceeds the budget. */
  lemma PresupuestoRestanteAtMost(c: Cliente, ps: seq<Pedido>, productos: seq<ItemProductoPedido>,
                                  servicios: seq<ItemServicioPedido>)
    requires AllPriced(ps, productos, servicios)
    requires ItemsNonNegative(productos, servicios)
    ensures PresupuestoRestante(c, ps, productos, servicios) <= c.presupuesto
  {
    var pedidos := PedidosDeCliente(ps, c.id);
    assert AllPriced(pedidos, productos, servicios) by {
      forall p | p in pedidos ensures ProductosPriced(p.id, productos) && ServiciosPriced(p.id, servicios) {
        var i :| 0 <= i < |pedidos| && pedidos[i] == p;
      }
    }
    SumTotalesNonNegative(pedidos, productos, servicios);
  }

  // ----------------------------------------------------------------- report

  /** `fecha_pedido__date__range=[desde, hasta]`: both ends inclusive. */
  predicate EnRango(p: Pedido, desde: Date, hasta: Date) {
    desde <= DateOf(p.fecha_pedido) <= hasta
  }

  /** The range test as a filter. */
  function EnRangoDe(desde: Date, hasta: Date): Pedido -> bool {
    (p: Pedido) => EnRango(p, desde, hasta)
  }

  /** The report's orders, newest first (`Meta.ordering`). */
  function PedidosEnRango(ps: seq<Pedido>, desde: Date, hasta: Date): (r: seq<Pedido>)
    ensures forall i :: 0 <= i < |r| ==> r[i] in ps && EnRango(r[i], desde, hasta)
    ensures forall i :: 0 <= i < |ps| && EnRango(ps[i], desde, hasta) ==> ps[i] in r
    ensures multiset(r) <= multiset(ps)
    ensures Sorted(r, PedidoLe)
  {
    var queryset := Filter(ps, EnRangoDe(desde, hasta));
    PedidosComparable(queryset);
    SortByMembers(queryset, PedidoLe);
    SortBy(queryset, PedidoLe)
  }

  /** `total_ingresos`: the sum of the non-zero totals of the orders in range. */
  function TotalIngresos(ps: seq<Pedido>, desde: Date, hasta: Date,
                         productos: seq<ItemProductoPedido>, servicios: seq<ItemServicioPedido>): Cents
    reads productos, servicios
    requires AllPriced(ps, productos, servicios)
    decreases |ps|
  {
    if ps == [] then 0
    else
      assert ps[0] in ps;
      var t := if EnRango(ps[0], desde, hasta) then TotalPedido(ps[0], productos, servicios) else 0;
      (if t != 0 then t else 0) + TotalIngresos(ps[1..], desde, hasta, productos, servicios)
  }

  lemma AllPricedTail(ps: seq<Pedido>, productos: seq<ItemProductoPedido>, servicios: seq<ItemServicioPedido>)
    requires ps != [] && AllPriced(ps, productos, servicios)
    ensures AllPriced(ps[1..], productos, servicios)
  {
    forall p | p in ps[1..] ensures ProductosPriced(p.id, productos) && ServiciosPriced(p.id, servicios) {
      assert p in ps;
    }
  }

  /** A range that ends before it starts earns nothing. */
  lemma {:induction false} TotalIngresosEmptyRange(ps: seq<Pedido>, desde: Date, hasta: Date,
                                                   productos: seq<ItemProductoPedido>, servicios: seq<ItemServicioPedido>)
    requires AllPriced(ps, productos, servicios)
    requires desde > hasta
    ensures TotalIngresos(ps, desde, hasta, productos, servicios) == 0
    decreases |ps|
  {
    if ps != [] {
      AllPricedTail(ps, productos, servicios);
      TotalIngresosEmptyRange(ps[1..], desde, hasta, productos, servicios);
    }
  }

  /** Splitting a range at a day splits the income: [a, c] earns what
      [a, b] and [b + 1, c] earn together. */
  lemma {:induction false} TotalIngresosSplit(ps: seq<Pedido>, a: Date, b: Date, c: Date,
                                              productos: seq<ItemProductoPedido>, servicios: seq<ItemServicioPedido>)
    requires AllPriced(ps, productos, servicios)
    requires a <= b < c
    ensures TotalIngresos(ps, a, c, productos, servicios) ==
            TotalIngresos(ps, a, b, productos, servicios) + TotalIngresos(ps, b + 1, c, productos, servicios)
    decreases |ps|
  {
    if ps != [] {
      AllPricedTail(ps, productos, servicios);
      TotalIngresosSplit(ps[1..], a, b, c, productos, servicios);
    }
  }

  /** When every order falls in the range the income is the plain sum of totals. */
  lemma {:induction false} TotalIngresosAll(ps: seq<Pedido>, desde: Date, hasta: Date,
                                            productos: seq<ItemProductoPedido>, servicios: seq<ItemServicioPedido>)
    requires AllPriced(ps, productos, servicios)
    requires forall i :: 0 <= i < |ps| ==> EnRango(ps[i], desde, hasta)
    ensures TotalIngresos(ps, desde, hasta, productos, servicios) == SumTotales(ps, productos, servicios)
    decreases |ps|
  {
    if ps != [] {
      AllPricedTail(ps, productos, servicios);
      assert EnRango(ps[0], desde, hasta);
      TotalIngresosAll(ps[1..], desde, hasta, productos, servicios);
    }
  }

  /** Orders drawn from priced orders are priced. */
  lemma AllPricedSub(a: seq<Pedido>, b: seq<Pedido>, productos: seq<ItemProductoPedido>,
                     servicios: seq<ItemServicioPedido>)
    requires AllPriced(b, productos, servicios)
    requires forall i :: 0 <= i < |a| ==> a[i] in b
    ensures AllPriced(a, productos, servicios)
  {
    forall p | p in a ensures ProductosPriced(p.id, productos) && ServiciosPriced(p.id, servicios) {
      var i :| 0 <= i < |a| && a[i] == p;
    }
  }

  lemma {:induction false} SumTotalesAppend(a: seq<Pedido>, b: seq<Pedido>, productos: seq<ItemProductoPedido>,
                                            servicios: seq<ItemServicioPedido>)
    requires AllPriced(a + b, productos, servicios)
    ensures AllPriced(a, productos, servicios) && AllPriced(b, productos, servicios)
    ensures SumTotales(a + b, productos, servicios) == SumTotales(a, productos, servicios) + SumTotales(b, productos, servicios)
    decreases |a|
  {
    assert forall i :: 0 <= i < |a| ==> (a + b)[i] == a[i];
    assert forall i :: 0 <= i < |b| ==> (a + b)[|a| + i] == b[i];
    AllPricedSub(a, a + b, productos, servicios);
    AllPricedSub(b, a + b, productos, servicios);
    if a != [] {
      assert (a + b)[1..] == a[1..] + b;
      AllPricedTail(a + b, productos, servicios);
      SumTotalesAppend(a[1..], b, productos, servicios);
    } else {
      assert a + b == b;
    }
  }

  /** Taking out the order at `k` takes out its total. */
  lemma SumTotalesRemove(s: seq<Pedido>, k: int, productos: seq<ItemProductoPedido>,
                         servicios: seq<ItemServicioPedido>)
    requires AllPriced(s, productos, servicios) && 0 <= k < |s|
    ensures AllPriced(s[..k] + s[k + 1..], productos, servicios)
    ensures ProductosPriced(s[k].id, productos) && ServiciosPriced(s[k].id, servicios)
    ensures SumTotales(s, productos, servicios) ==
            TotalPedido(s[k], productos, servicios) + SumTotales(s[..k] + s[k + 1..], productos, servicios)
  {
    assert s[k] in s;
    var tail := [s[k]] + s[k + 1..];
    assert s == s[..k] + tail;
    SumTotalesAppend(s[..k], tail, productos, servicios);
    assert tail[1..] == s[k + 1..];
    var rest := s[..k] + s[k + 1..];
    assert AllPriced(rest, productos, servicios) by {
      forall i | 0 <= i < |rest| ensures rest[i] in s {
        if i < k {
          assert rest[i] == s[i];
        } else {
          assert rest[i] == s[i + 1];
        }
      }
      AllPricedSub(rest, s, productos, servicios);
    }
    SumTotalesAppend(s[..k], s[k + 1..], productos, servicios);
  }

  /** The sum of the totals does not depend on the order of the orders. */
  lemma {:induction false} SumTotalesPermutation(a: seq<Pedido>, b: seq<Pedido>, productos: seq<ItemProductoPedido>,
                                                 servicios: seq<ItemServicioPedido>)
    requires AllPriced(a, productos, servicios) && multiset(a) == multiset(b)
    ensures AllPriced(b, productos, servicios)
    ensures SumTotales(a, productos, servicios) == SumTotales(b, productos, servicios)
    decreases |a|
  {
    MultisetMembers(b, a);
    AllPricedSub(b, a, productos, servicios);
    if a == [] {
      assert |b| == |multiset(b)| == 0;
    } else {
      var k := MultisetRemove(a, b);
      SumTotalesRemove(b, k, productos, servicios);
      AllPricedTail(a, productos, servicios);
      SumTotalesPermutation(a[1..], b[..k] + b[k + 1..], productos, servicios);
    }
  }

  /** The income is the plain sum of the totals of the orders that pass the range filter. */
  lemma {:induction false} TotalIngresosFilter(ps: seq<Pedido>, desde: Date, hasta: Date,
                                               productos: seq<ItemProductoPedido>, servicios: seq<ItemServicioPedido>)
    requires AllPriced(ps, productos, servicios)
    ensures AllPriced(Filter(ps, EnRangoDe(desde, hasta)), productos, servicios)
    ensures TotalIngresos(ps, desde, hasta, productos, servicios) ==
            SumTotales(Filter(ps, EnRangoDe(desde, hasta)), productos, servicios)
    decreases |ps|
  {
    var f := EnRangoDe(desde, hasta);
    AllPricedSub(Filter(ps, f), ps, productos, servicios);
    if ps != [] {
      AllPricedTail(ps, productos, servicios);
      TotalIngresosFilter(ps[1..], desde, hasta, productos, servicios);
      if f(ps[0]) {
        assert Filter(ps, f)[1..] == Filter(ps[1..], f);
      }
    }
  }

  /** The report's income is the sum of the totals of exactly the orders it lists. */
  lemma TotalIngresosDelReporte(ps: seq<Pedido>, desde: Date, hasta: Date,
                                productos: seq<ItemProductoPedido>, servicios: seq<ItemServicioPedido>)
    requires AllPriced(ps, productos, servicios)
    ensures AllPriced(PedidosEnRango(ps, desde, hasta), productos, servicios)
    ensures TotalIngresos(ps, desde, hasta, productos, servicios) ==
            SumTotales(PedidosEnRango(ps, desde, hasta), productos, servicios)
  {
    var queryset := Filter(ps, EnRangoDe(desde, hasta));
    TotalIngresosFilter(ps, desde, hasta, productos, servicios);
    PedidosComparable(queryset);
    assert PedidosEnRango(ps, desde, hasta) == SortBy(queryset, PedidoLe);
    SumTotalesPermutation(queryset, SortBy(queryset, PedidoLe), productos, servicios);
  }

  /** How many of the orders are in state `estado`. */
  function CountEstado(ps: seq<Pedido>, estado: string): (n: nat)
    reads ps
    ensures n <= |ps|
    ensures n == 0 <==> forall i :: 0 <= i < |ps| ==> ps[i].estado != estado
  {
    if ps == [] then 0
    else (if ps[0].estado == estado then 1 else 0) + CountEstado(ps[1..], estado)
  }

  /** The counts of each state in a choices table, added up. */
  function CountEstados(choices: Choices, ps: seq<Pedido>): nat
    reads ps
  {
    if choices == [] then 0 else CountEstado(ps, choices[0].0) + CountEstados(choices[1..], ps)
  }

  /** How many keys of the table equal `e`. */
  function KeyCount(choices: Choices, e: string): nat {
    if choices == [] then 0 else (if choices[0].0 == e then 1 else 0) + KeyCount(choices[1..], e)
  }

  lemma {:induction false} KeyCountUnique(choices: Choices, e: string)
    requires UniqueKeys(choices)
    ensures KeyCount(choices, e) == if HasKey(choices, e) then 1 else 0
  {
    if choices != [] {
      assert UniqueKeys(choices[1..]) by {
        forall i, j | 0 <= i < j < |choices[1..]| ensures choices[1..][i].0 != choices[1..][j].0 {
          assert choices[1..][i] == choices[i + 1] && choices[1..][j] == choices[j + 1];
        }
      }
      KeyCountUnique(choices[1..], e);
      if HasKey(choices[1..], e) {
        var i :| 0 <= i < |choices[1..]| && choices[1..][i].0 == e;
        assert choices[i + 1].0 == e;
        assert choices[0].0 != e;
      }
      if HasKey(choices, e) && choices[0].0 != e {
        var i :| 0 <= i < |choices| && choices[i].0 == e;
        assert choices[1..][i - 1].0 == e;
      }
    }
  }

  lemma {:induction false} CountEstadosEmpty(choices: Choices, ps: seq<Pedido>)
    requires ps == []
    ensures CountEstados(choices, ps) == 0
  {
    if choices != [] {
      CountEstadosEmpty(choices[1..], ps);
    }
  }

  lemma {:induction false} CountEstadosCons(choices: Choices, ps: seq<Pedido>)
    requires ps != []
    ensures CountEstados(choices, ps) == CountEstados(choices, ps[1..]) + KeyCount(choices, ps[0].estado)
  {
    if choices != [] {
      CountEstadosCons(choices[1..], ps);
    }
  }

  /** In a table without repeated keys, when every order's state is a key,
      the per-state counts add up to the number of orders. */
  lemma {:induction false} CountEstadosPartition(choices: Choices, ps: seq<Pedido>)
    requires UniqueKeys(choices)
    requires forall i :: 0 <= i < |ps| ==> HasKey(choices, ps[i].estado)
    ensures CountEstados(choices, ps) == |ps|
  {
    if ps != [] {
      CountEstadosCons(choices, ps);
      KeyCountUnique(choices, ps[0].estado);
      assert HasKey(choices, ps[0].estado);
      assert forall i :: 0 <= i < |ps[1..]| ==> HasKey(choices, ps[1..][i].estado) by {
        forall i | 0 <= i < |ps[1..]| ensures HasKey(choices, ps[1..][i].estado) {
          assert ps[1..][i] == ps[i + 1];
        }
      }
      CountEstadosPartition(choices, ps[1..]);
    } else {
      CountEstadosEmpty(choices, ps);
    }
  }

  /** When every order is in one of the six states, the report's per-state
      counts add up to the number of orders. */
  lemma CountEstadosTotal(ps: seq<Pedido>)
    requires forall i :: 0 <= i < |ps| ==> IsEstado(ps[i].estado)
    ensures CountEstados(EstadoPedidoChoices, ps) == |ps|
  {
    EstadoPedidoChoicesUnique();
    CountEstadosPartition(EstadoPedidoChoices, ps);
  }

  /** The report page: the orders in range with their count and income, or
      "Fechas inválidas" when a date is missing or malformed. */
  datatype Reporte =
    | FechasInvalidas
    | Reporte(pedidos: seq<Pedido>, total_pedidos: nat, total_ingresos: Cents)

  /** `ReportePedidosView.post`, with the posted dates already parsed (None
      when `strptime` would fail). */
  function ReportePedidos(desde: Option<Date>, hasta: Option<Date>, ps: seq<Pedido>,
                          productos: seq<ItemProductoPedido>, servicios: seq<ItemServicioPedido>): (r: Reporte)
    reads productos, servicios
    requires AllPriced(ps, productos, servicios)
    ensures r.FechasInvalidas? <==> desde.None? || hasta.None?
    ensures r.Reporte? ==>
              && (forall i :: 0 <= i < |r.pedidos| ==> r.pedidos[i] in ps && EnRango(r.pedidos[i], desde.value, hasta.value))
              && (forall i :: 0 <= i < |ps| && EnRango(ps[i], desde.value, hasta.value) ==> ps[i] in r.pedidos)
              && Sorted(r.pedidos, PedidoLe)
              && r.total_pedidos == |r.pedidos|
              && r.total_ingresos == TotalIngresos(ps, desde.value, hasta.value, productos, servicios)
    ensures r.Reporte? ==> AllPriced(r.pedidos, productos, servicios) &&
                           r.total_ingresos == SumTotales(r.pedidos, productos, servicios)
    ensures r.Reporte? && desde.value > hasta.value ==> r.pedidos == [] && r.total_ingresos == 0
  {
    if desde.None? || hasta.None? then FechasInvalidas
    else
      var pedidos := PedidosEnRango(ps, desde.value, hasta.value);
      TotalIngresosDelReporte(ps, desde.value, hasta.value, productos, servicios);
      if desde.value > hasta.value then
        TotalIngresosEmptyRange(ps, desde.value, hasta.value, productos, servicios);
        Reporte(pedidos, |pedidos|, TotalIngresos(ps, desde.value, hasta.value, productos, servicios))
      else
        Reporte(pedidos, |pedidos|, TotalIngresos(ps, desde.value, hasta.value, productos, servicios))
  }
}
