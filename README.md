# Sipp order management, modelled in Dafny

This project models the business core of the Sipp order-management web application (a Django app for a small IT
reseller). The app tracks clients, supplier companies, hardware products, informatics services and orders
(pedidos). An order bundles product lines and service lines. The model covers three parts of the app:

- **Models**: the records, the three `choices` tables with their labels, and the unique-together rules.
  - `presupuesto_vencido`, `tipo_seleccion`, the product's `clean()` and `duracion_completa`.
  - The line items' `subtotal` and their price snapshot in `save()`, and the order's `total_pedido`.
- **Forms**: the single-field checks `clean_presupuesto`, `clean_precio`, `clean_duracion` and `clean_cantidad`.
  These let falsy values through, so zero passes. Also the cross-field `ProductoHardwareForm.clean`, which edits
  the form's cleaned data in place and records field-keyed errors.
- **Views**:
  - the `get_queryset` filter chains of the client, product, service and order lists;
  - the order status update;
  - the two AJAX endpoints that list a supplier's products and services in a loop, and the two price endpoints;
  - the totals on the client page and in the orders report.

Money is integer cents, because every money field has two decimal places. A date is a day number. An order's
`fecha_pedido` is a timestamp in seconds, and its calendar day is `t / 86400`. A choice field holds its raw key,
as the database does, and its label comes from the `(key, label)` table. An unknown key displays as itself,
as `get_FOO_display` does. The database tables are sequences of records:

- line items and orders, whose fields the code updates in place, are classes (`ItemProductoPedido`,
  `ItemServicioPedido`, `Pedido`);
- everything else is a datatype.

A query is a function on those sequences, and its ordering is an insertion sort by the model's `Meta.ordering`.

Modules:

- `Optional`: the option type.
- `Text`: ASCII case folding and `icontains`, code-point lexicographic order, decimal digits, and the
  two-decimal text of a money amount, with its parser.
- `Seqs`: filter, de-duplication, and sorting by a comparator.
- `Models`: SippApp/models.py.
- `Forms`: SippApp/forms.py.
- `Views`: SippApp/views.py.

What the code does at its edges, which the model keeps:

- Prices and durations: the messages of `clean_precio` and `clean_duracion` (SippApp/forms.py:171, 252, 259)
  ask for a value above zero, but their truthiness guard lets zero through. The model fields' own
  `MinValueValidator(0)` on the prices also accepts zero.
- Quantities: the message of `clean_cantidad` asks for at least 1, but the form check lets zero through. The
  line items' `MinValueValidator(1)` (SippApp/models.py:277, 319) runs afterwards, in model validation, and
  refuses zero.
- Price snapshot: `save()` (SippApp/models.py:300, 342) takes the current catalog price again whenever the
  stored unit price is zero, not only when it is missing.
- Supplier lookups:
  - `tipo_final` in `api_get_productos_empresa` shows an empty custom type for "otros", where
    `tipo_seleccion` shows "Otros".
  - `api_get_servicios_empresa` shows the raw unit key ("3 dias"), not the label that `duracion_completa` shows
    ("3 Días").
- Unique-together rule for products: a product without a supplier clashes with no other product, because SQL
  NULLs are never equal.

## Model

| member | source | states |
|---|---|---|
| Models.PresupuestoVencidoBoundary | SippApp/models.py:27-30 | the budget is not expired on its expiry day, is expired the day after, and stays expired on every later day |
| Models.PresupuestoVencido | SippApp/models.py:27-30 | a predicate with no contract of its own: the budget is expired on the days after its expiry date; `PresupuestoVencidoBoundary` states its properties |
| Models.DisplayOfChoice | SippApp/models.py:62-72 | in a choices table without repeated keys, the displayed label of each key is the label paired with it |
| Models.MinValueErrors | SippApp/models.py:10-15 | a `MinValueValidator(limit)` refuses a value exactly when it is below the limit, with one message under the field's name only |
| Models.Lookup | SippApp/models.py:62-72 | `dict(choices).get(key)` finds a label exactly when the key is in the table, and the label found is the one of the last pair with that key, as a dict built from the pairs keeps |
| Models.Display | SippApp/models.py:117-122 | `get_FOO_display()` shows a label paired with the key in the table when the key is there, and the key itself otherwise |
| Models.TipoProductoChoicesUnique | SippApp/models.py:62-72 | the nine product-type keys are distinct |
| Models.TipoSeleccion | SippApp/models.py:117-122 | a function with no contract of its own; `TipoSeleccionCases` states what it shows in each case |
| Models.TipoSeleccionCases | SippApp/models.py:117-122 | `tipo_seleccion` gives the custom text for "otros" with text, "Otros" for "otros" without text, each type's own label otherwise, and the raw key for an unknown type |
| Models.ProductoClean | SippApp/models.py:127-134 | a failed validation reports one error, the custom-type message, under `tipo_personalizado` only |
| Models.ProductoCleanSpec | SippApp/models.py:127-134 | model validation fails exactly for "otros" without custom text, with errors keyed only on `tipo_personalizado`; a valid "otros" product shows its custom text and a failing one shows "Otros" |
| Models.DuracionCompletaLabels | SippApp/models.py:156-160 | each of the units horas, dias and meses reads as its label Horas, Días, Meses after the duration and a space |
| Models.DuracionCompleta | SippApp/models.py:194-196 | the text up to its first space is the decimal duration |
| Models.DuracionCompletaDetermines | SippApp/models.py:194-196 | for valid units, the duration text determines both the number and the unit (the text is injective) |
| Text.NatToString | SippApp/models.py:194-196 | the decimal text of the duration is non-empty, all digits, and has no leading zero |
| Text.ParseNatToString | SippApp/models.py:194-196 | reading back the decimal text of a duration gives the duration |
| Models.EstadoPedidoChoicesUnique | SippApp/models.py:216-223 | the six order-state keys are distinct |
| Models.TotalPedido | SippApp/models.py:251-260 | a function with no contract of its own: the product sum plus the service sum of the order; the lemmas below state its properties |
| Models.SumProductos | SippApp/models.py:254-256 | a function with no contract of its own: the sum of the subtotals of the order's product lines |
| Models.SumServicios | SippApp/models.py:257-259 | a function with no contract of its own: the sum of the subtotals of the order's service lines |
| Models.TotalPedidoEmpty | SippApp/models.py:251-260 | an order without product or service lines totals 0 |
| Models.SumProductosAppend | SippApp/models.py:251-260 | adding a product line adds its subtotal to its own order's product sum and leaves other orders' sums unchanged |
| Models.SumServiciosAppend | SippApp/models.py:251-260 | adding a service line adds its subtotal to its own order's service sum and leaves other orders' sums unchanged |
| Models.SumProductosNone | SippApp/models.py:251-260 | product lines of other orders contribute nothing to an order's total |
| Models.SumServiciosNone | SippApp/models.py:251-260 | service lines of other orders contribute nothing to an order's total |
| Models.SumProductosNonNegative | SippApp/models.py:254-256 | with non-negative quantities and unit prices, the product sum is non-negative |
| Models.SumServiciosNonNegative | SippApp/models.py:257-260 | with non-negative quantities and unit prices, the service sum is non-negative |
| Models.ItemProductoPedido.Save | SippApp/models.py:298-302 | after saving, the unit price is the one given if it was non-zero, and otherwise the product's current price; nothing else changes |
| Models.ItemServicioPedido.Save | SippApp/models.py:340-344 | after saving, the unit price is the one given if it was non-zero, and otherwise the service's current price; nothing else changes |
| Models.ItemProductoPedido.Subtotal | SippApp/models.py:294-296 | a priced product line's subtotal is zero exactly when its quantity or its unit price is, and is non-negative when both are |
| Models.ItemServicioPedido.Subtotal | SippApp/models.py:336-338 | a priced service line's subtotal is zero exactly when its quantity or its unit price is, and is non-negative when both are |
| Models.SnapshotPrice | SippApp/models.py:298-302 | a function with no contract of its own: the price kept when one was given and is non-zero, the catalog price otherwise; the two `Save` methods and `SnapshotStable` state its use |
| Models.SnapshotStable | SippApp/models.py:298-302 | a non-zero unit price survives saving and later catalog changes; a zero snapshot is replaced by the current price on the next save |
| Models.InsertProductoKeepsUnique | SippApp/models.py:115 | inserting a product keeps (nombre, empresa_proveedora) unique, and is refused exactly when a row with the same name and the same non-null supplier exists |
| Models.InsertProductoTwice | SippApp/models.py:115 | inserting the same product again fails when it has a supplier and succeeds when its supplier is NULL |
| Models.InsertProducto | SippApp/models.py:115 | a function with no contract of its own: the INSERT that `unique_together` refuses with an integrity error; `InsertProductoKeepsUnique` and `InsertProductoTwice` state its properties |
| Models.InsertServicioKeepsUnique | SippApp/models.py:189 | inserting a service keeps (nombre, empresa_proveedora) unique, and the same service cannot be inserted twice |
| Models.InsertServicio | SippApp/models.py:189 | a function with no contract of its own: the INSERT that `unique_together` refuses with an integrity error; `InsertServicioKeepsUnique` states its properties |
| Models.AddItemProductoKeepsUnique | SippApp/models.py:289 | a new product line keeps (pedido, producto) unique exactly when no line has that pair yet |
| Models.AddItemServicioKeepsUnique | SippApp/models.py:331 | a new service line keeps (pedido, servicio) unique exactly when no line has that pair yet |
| Forms.CleanPresupuesto | SippApp/forms.py:50-55 | a budget is refused exactly when it is negative, with the error under `presupuesto`; otherwise it is returned unchanged |
| Forms.CleanPrecio | SippApp/forms.py:167-172 | a price is refused exactly when it is negative, with the error under `precio`; zero and a missing value pass unchanged |
| Forms.CleanDuracion | SippApp/forms.py:255-260 | a duration is refused exactly when it is negative; zero passes unchanged |
| Forms.CleanCantidad | SippApp/forms.py:333-338 | a quantity is refused exactly when it is negative; zero passes unchanged although the message asks for at least 1 |
| Forms.CleanZeroPasses | SippApp/forms.py:369-374 | each of the field checks `clean_presupuesto`, `clean_precio`, `clean_duracion` and `clean_cantidad` (also SippApp/forms.py:50-55, 167-172, 255-260 and 333-338) lets zero and a missing value through; a quantity of 1 passes and -1 is refused |
| Forms.PresupuestoValidation | SippApp/models.py:10-15 | after `clean_presupuesto`, the field's `MinValueValidator(0)` refuses exactly the negative budgets, which the form check already refuses, so it gives the form check's result |
| Forms.PrecioValidation | SippApp/models.py:88-93 | after `clean_precio`, the field's `MinValueValidator(0)` leaves exactly the non-negative prices, unchanged; zero is accepted |
| Forms.CantidadValidation | SippApp/models.py:275-279 | after `clean_cantidad`, the item's `MinValueValidator(1)` refuses exactly the quantities below 1; a negative one keeps the form's message and zero gets the validator's message |
| Forms.CantidadZeroRefusedByValidator | SippApp/forms.py:333-338 | zero passes `clean_cantidad` but is refused once the model field's validator runs; 1 passes both |
| Forms.ProductoHardwareForm.Clean | SippApp/forms.py:151-165 | the form's cleaned data and errors become the normalised data and the errors of the cross-field check, and the cleaned data is returned |
| Forms.ProductoHardwareForm.AddError | SippApp/forms.py:157-158 | the message is appended to the field's errors and the field leaves the cleaned data |
| Forms.ProductoCleanedData | SippApp/forms.py:161-165 | a function with no contract of its own; `ProductoCleanSpec`, `ProductoCleanKeepsOtherFields` and `ProductoCleanIdempotent` state its properties |
| Forms.ProductoCleanErrors | SippApp/forms.py:155-159 | a function with no contract of its own; `ProductoCleanSpec` states when and where it adds an error |
| Forms.ProductoCleanSpec | SippApp/forms.py:151-165 | an error is added, only on `tipo_personalizado`, exactly for "otros" without custom text; for another type a custom text is cleared to ""; "otros" with text is unchanged |
| Forms.ProductoCleanKeepsOtherFields | SippApp/forms.py:161-165 | no cleaned field other than `tipo_personalizado` is added, removed or changed |
| Forms.ProductoCleanIdempotent | SippApp/forms.py:153-165 | normalising the cleaned data twice gives the same data as normalising it once |
| Forms.TipoPersonalizadoNotRequired | SippApp/forms.py:148-149 | for any type but "otros", a missing, empty or given custom type causes no error |
| Forms.FormCleanImpliesModelClean | SippApp/forms.py:151-165 | data that comes out of the form's check with a text custom type builds a product that passes the model's `clean()` |
| Views.ClienteList | SippApp/views.py:88-99 | the result holds exactly the clients whose name, manager or e-mail contains the query case-insensitively (all clients, with their multiplicity, for an empty query), sorted by name |
| Views.ServicioList | SippApp/views.py:383-393 | the result holds exactly the active services whose name or description contains the query case-insensitively, sorted by name |
| Views.ProductoMatchesRow | SippApp/views.py:272-278 | a product matches the search exactly when one of its rows in the join with its characteristics matches it |
| Views.SearchProductos | SippApp/views.py:272-278 | the search keeps exactly the products whose name, custom type or a characteristic's attribute or value contains the query, each once |
| Views.SoloActivos | SippApp/views.py:258 | `filter(activo=True)` keeps exactly the active products, and keeps a list without repeats free of repeats |
| Views.PorTipo | SippApp/views.py:266-267 | a given type keeps exactly the products of that type; no type keeps all |
| Views.PorCategoria | SippApp/views.py:268-269 | a given category keeps exactly the products in that category; none keeps all |
| Views.PorEmpresa | SippApp/views.py:270-271 | a given supplier keeps exactly that supplier's products; none keeps all |
| Views.PorBusqueda | SippApp/views.py:272-279 | an empty query keeps every product; a non-empty one keeps exactly the products matching it, each once; a list without repeats stays without repeats |
| Views.ProductoList | SippApp/views.py:257-280 | the result holds exactly the active products that pass every given filter and the search, sorted by (tipo, nombre), with no repeats when searched |
| Views.ProductoLeTransitive | SippApp/models.py:114 | the (tipo, nombre) ordering is transitive |
| Views.PedidoList | SippApp/views.py:436-456 | the result holds exactly the orders passing the optional status, client and inclusive date filters, newest first; with no filter it is a permutation of all orders |
| Views.PedidoListEmptyRange | SippApp/views.py:449-452 | a date range that ends before it starts selects no order |
| Views.FiltraPedidos | SippApp/views.py:445-452 | the filtered orders are exactly those passing every given filter, drawn from the orders, and with no filter they are all the orders in their order |
| Views.ListsOrderedPairwise | SippApp/views.py:99 | the client, service, product and order lists are ordered between any two positions, not only between neighbours |
| Views.FindPedido | SippApp/views.py:564 | the lookup finds an order with the given id exactly when one exists |
| Views.PostEstado | SippApp/views.py:563-574 | 404 exactly when no order has the id; the status changes, to the posted value, exactly when that value is one of the six states; no other order changes, notes never change, and valid states stay valid |
| Views.TipoFinal | SippApp/views.py:615-616 | a function with no contract of its own; `TipoFinalVsSeleccion` compares it with `tipo_seleccion` |
| Views.TipoFinalVsSeleccion | SippApp/views.py:615-616 | the endpoint's `tipo_final` agrees with `tipo_seleccion` except for "otros" without custom text, which the endpoint shows as "" and the model as "Otros" |
| Views.ProductosDeEmpresa | SippApp/views.py:604-607 | the lookup holds exactly the active products of the supplier, in (tipo, nombre) order |
| Views.ProductoEntries | SippApp/views.py:609-617 | the loop builds one entry per product, in order, whose price text reads back as the product's price; the entries are exactly the entries of the listed products |
| Views.ApiGetProductosEmpresa | SippApp/views.py:601-619 | a GET gets one entry per active product of the supplier, in order, and each entry's price text reads back as the product's price; any other method gets no response, which Django turns into a server error |
| Views.DuracionApiVsCompleta | SippApp/views.py:637 | the endpoint's duration text equals `duracion_completa` exactly when the unit is not one of the choices |
| Views.DuracionApi | SippApp/views.py:637 | a function with no contract of its own: the duration and the raw unit key; `DuracionApiVsCompleta` compares it with `duracion_completa` |
| Views.ServiciosDeEmpresa | SippApp/views.py:626-629 | the lookup holds exactly the active services of the supplier, in name order |
| Views.ServicioEntries | SippApp/views.py:631-639 | the loop builds one entry per service, in order, whose price text reads back as the service's price; the entries are exactly the entries of the listed services |
| Views.ApiGetServiciosEmpresa | SippApp/views.py:623-640 | a GET gets one entry per active service of the supplier, in order, with the raw-unit duration text and a price that reads back as the service's price; any other method gets no response, which Django turns into a server error |
| Views.ApiGetPrecioProducto | SippApp/views.py:644-648 | 404 exactly when no active product has the id; otherwise the answer is the two-decimal text of the price of such a product, which reads back as that price |
| Views.ApiGetPrecioServicio | SippApp/views.py:652-656 | 404 exactly when no active service has the id; otherwise the answer is the two-decimal text of the price of such a service, which reads back as that price |
| Views.FindProductoActivo | SippApp/views.py:647 | the lookup finds nothing exactly when no active product has the id, and what it finds is an active product with that id |
| Views.FindServicioActivo | SippApp/views.py:655 | the lookup finds nothing exactly when no active service has the id, and what it finds is an active service with that id |
| Text.FormatCentsRoundTrip | SippApp/views.py:614 | the two-decimal text of a money amount reads back as that amount |
| Text.FormatCents | SippApp/views.py:614 | a function with no contract of its own: `str` of a two-decimal amount; `FormatCentsRoundTrip` states that it reads back |
| Views.TotalGastado | SippApp/views.py:127 | summing only the orders with a non-zero total gives the plain sum of all the orders' totals |
| Views.PedidosDeCliente | SippApp/views.py:118-122 | the client page lists exactly the client's orders, newest first |
| Views.PresupuestoRestante | SippApp/views.py:127-133 | the remaining budget is the budget minus the sum of the client's order totals |
| Views.PresupuestoRestanteAtMost | SippApp/views.py:127-133 | with non-negative quantities and prices, the remaining budget never exceeds the budget |
| Views.PedidosEnRango | SippApp/views.py:688-692 | the report lists exactly the orders whose day is within the inclusive range, newest first |
| Views.EnRango | SippApp/views.py:689 | a predicate with no contract of its own: `fecha_pedido__date__range` includes both end days; the report lemmas state its use |
| Views.TotalIngresos | SippApp/views.py:696 | a function with no contract of its own: the sum of the totals of the orders in the range; the three lemmas below state its properties |
| Views.TotalIngresosEmptyRange | SippApp/views.py:696 | a range that ends before it starts earns nothing |
| Views.TotalIngresosSplit | SippApp/views.py:696 | splitting the range at a day splits the income: [a, c] earns what [a, b] and [b + 1, c] earn together |
| Views.TotalIngresosAll | SippApp/views.py:696 | when every order is in the range, the income is the plain sum of the order totals |
| Views.SumTotalesPermutation | SippApp/views.py:696 | the sum of order totals is the same for any two lists holding the same orders |
| Views.TotalIngresosDelReporte | SippApp/views.py:688-696 | the income is the plain sum of the totals of exactly the orders the report lists, in their listed order |
| Views.CountEstadosTotal | SippApp/views.py:697 | when every order is in one of the six states, the per-state counts add up to the number of orders |
| Views.ReportePedidos | SippApp/views.py:676-708 | missing dates give "Fechas inválidas"; otherwise the report lists the orders in the range, their count, and an income equal to the plain sum of those orders' totals; a reversed range gives no orders and no income |
| Views.CountEstado | SippApp/views.py:697 | the count is at most the number of orders, and is zero exactly when no order is in that state |
| Seqs.SortBy | SippApp/views.py:99 | ordering a list is a permutation of it and sorts it by the comparator |
| Seqs.SortByNoDup | SippApp/views.py:278 | ordering neither adds nor removes repetitions |
| Seqs.SortedPairwise | SippApp/views.py:99 | under a transitive comparator, a list ordered between neighbours is ordered between any two positions |
| Seqs.Dedup | SippApp/views.py:278 | `.distinct()` keeps exactly the elements of the list, each once |
| Text.ContainsAt | SippApp/views.py:93-97 | the substring test holds exactly when the text occurs at some position |
| Text.LexLeTotal | SippApp/views.py:99 | any two names are comparable in the text order |
| Text.LexLeTransitive | SippApp/views.py:99 | the text order is transitive |
| Text.LexLeAntisymmetric | SippApp/views.py:99 | names that are each at most the other are equal |

## Left out

- I/O, HTTP and rendering are left out: templates, `messages` (except the status update's two messages),
  redirects, JSON construction, pagination, login mixins and CSRF decorators. The AJAX endpoints return the
  list or value the JSON would hold. `isGet` says whether the request was a GET.
- The ORM is left out: persistence, transactions, `select_related` and `prefetch_related`, and cascading
  deletes. The tables are sequences, and a related manager is the rows whose foreign key matches.
- The current time is not modelled: today's date is a parameter wherever it is needed.
- Time zones are not modelled: the day of a timestamp is `t / 86400`.
- Order among rows that tie on the ordering key is not specified by the database. The model's sort keeps one
  order, and no lemma depends on it.
- Text matching is simplified: ordering uses code points, not a database collation, and `icontains` folds
  ASCII letters only.
- `Decimal` is modelled as integer cents: the `max_digits` bounds are not modelled, and `str` of a price is
  the two-decimal text `FormatCents`.
- The report's `strptime` parsing is not modelled: the dates arrive parsed, and None stands for a missing or
  malformed date.
- The `categoria`, `empresa` and `cliente` GET parameters of the list views arrive as parsed ids, and the order
  list's `fecha_desde` and `fecha_hasta` (SippApp/views.py:449-452) as parsed dates. A text that is not a number
  or not a date, which the ORM refuses with a `ValidationError` and so a server error, is not modelled.
- The model fields' validators are modelled as the check that follows the form's: `MinValueValidator(0)` on
  `presupuesto` and the two prices (SippApp/models.py:14, 92, 174) and `MinValueValidator(1)` on the line items'
  `cantidad` (SippApp/models.py:277, 319). Model validation (`full_clean`) therefore refuses a quantity of 0.
  The service's `duracion` carries no validator of its own.
- The form field pipeline before `clean_<field>` is not modelled: required checks, widgets, the `max_digits`
  checks, and the `min_value` 0 that the positive-integer form fields carry. That `min_value` already refuses
  negative durations and quantities before `clean_duracion` and `clean_cantidad` run. Validator messages are
  shown untranslated.
- `pedidos_por_estado` in the report: the model counts orders per state (`CountEstado`). It does not model the
  list of `(estado, total)` groups the database returns.
- The dashboard view, the supplier, category and CRUD views, admin.py and urls.py are not part of this
  model: they hold no rule of their own beyond framework configuration.
- Models.ItemProductoPedido.Subtotal: requires a unit price. Python raises a TypeError multiplying by None; the
  model does not represent that error.
- Models.ItemServicioPedido.Subtotal: requires a unit price, for the same reason as the product line.
