/** Form-level validation and normalisation (SippApp/forms.py): the
    single-field `clean_<field>` checks, which let falsy values through
    untouched, and the cross-field `ProductoHardwareForm.clean`, which edits
    the form's cleaned data in place and records errors by field. */
module Forms {

  import opened Optional
  import opened Models

  /** What a `clean_<field>` method produces: the cleaned value, or the
      `ValidationError` it raised, recorded under the field's name. */
  datatype Cleaned<T> = Ok(value: T) | Rejected(errors: ErrorDict)

  const PresupuestoMessage: string := "El presupuesto no puede ser negativo."
  const PrecioMessage: string := "El precio debe ser mayor a cero."
  const DuracionMessage: string := "La duraci\U{f3}n debe ser mayor a cero."
  const CantidadMessage: string := "La cantidad debe ser al menos 1."

  /** Python truthiness of an optional number: present and non-zero. */
  predicate Truthy(v: Option<int>) {
    v.Some? && v.value != 0
  }

  /** `ClienteForm.clean_presupuesto`. */
  function CleanPresupuesto(presupuesto: Option<Cents>): (r: Cleaned<Option<Cents>>)
    ensures r.Rejected? <==> presupuesto.Some? && presupuesto.value < 0
    ensures r.Ok? ==> r.value == presupuesto
    ensures r.Rejected? ==> r.errors == map["presupuesto" := [PresupuestoMessage]]
  {
    if Truthy(presupuesto) && presupuesto.value < 0 then
      Rejected(map["presupuesto" := [PresupuestoMessage]])
    else Ok(presupuesto)
  }

  /** `clean_precio`, the same in ProductoHardwareForm and ServicioInformaticoForm.
      Its message asks for a price above zero, but a price of zero is falsy
      and is let through: only negative prices are refused. */
  function CleanPrecio(precio: Option<Cents>): (r: Cleaned<Option<Cents>>)
    ensures r.Rejected? <==> precio.Some? && precio.value < 0
    ensures r.Ok? ==> r.value == precio
    ensures r.Rejected? ==> r.errors == map["precio" := [PrecioMessage]]
  {
    if Truthy(precio) && precio.value <= 0 then Rejected(map["precio" := [PrecioMessage]])
    else Ok(precio)
  }

  /** `ServicioInformaticoForm.clean_duracion`: likewise zero passes, only
      negative durations are refused. */
  function CleanDuracion(duracion: Option<int>): (r: Cleaned<Option<int>>)
    ensures r.Rejected? <==> duracion.Some? && duracion.value < 0
    ensures r.Ok? ==> r.value == duracion
    ensures r.Rejected? ==> r.errors == map["duracion" := [DuracionMessage]]
  {
    if Truthy(duracion) && duracion.value <= 0 then Rejected(map["duracion" := [DuracionMessage]])
    else Ok(duracion)
  }

  /** `clean_cantidad`, the same in ItemProductoPedidoForm and
      ItemServicioPedidoForm: a quantity of zero is falsy and passes, so
      only negative quantities are refused although the message asks for 1. */
  function CleanCantidad(cantidad: Option<int>): (r: Cleaned<Option<int>>)
    ensures r.Rejected? <==> cantidad.Some? && cantidad.value < 0
    ensures r.Ok? ==> r.value == cantidad
    ensures r.Rejected? ==> r.errors == map["cantidad" := [CantidadMessage]]
  {
    if Truthy(cantidad) && cantidad.value < 1 then Rejected(map["cantidad" := [CantidadMessage]])
    else Ok(cantidad)
  }

  /** The boundary cases the truthiness guards produce. */
  lemma CleanZeroPasses()
    ensures CleanPresupuesto(Some(0)) == Ok(Some(0)) && CleanPresupuesto(None) == Ok(None)
    ensures CleanPrecio(Some(0)) == Ok(Some(0)) && CleanPrecio(None) == Ok(None)
    ensures CleanDuracion(Some(0)) == Ok(Some(0)) && CleanDuracion(None) == Ok(None)
    ensures CleanCantidad(Some(0)) == Ok(Some(0)) && CleanCantidad(None) == Ok(None)
    ensures CleanCantidad(Some(1)) == Ok(Some(1)) && CleanCantidad(Some(-1)).Rejected?
  {
  }

  // ------------------------------------------ model validation after the form

  /** A ModelForm's `_post_clean` runs `full_clean` on the instance after the
      form's own checks; the field's `MinValueValidator(limit)` then checks a
      value that the form let through (a field the form refused is excluded). */
  function WithMinValue(c: Cleaned<Option<int>>, field: string, limit: nat): Cleaned<Option<int>> {
    match c
    case Rejected(_) => c
    case Ok(v) => if v.Some? && v.value < limit then Rejected(MinValueErrors(field, limit, v.value)) else c
  }

  /** `clean_presupuesto`, then `MinValueValidator(0)`: refused exactly when
      negative, so the validator adds nothing to the form's check. */
  function PresupuestoValidation(presupuesto: Option<Cents>): (r: Cleaned<Option<Cents>>)
    ensures r.Rejected? <==> presupuesto.Some? && presupuesto.value < PresupuestoMin
    ensures r.Ok? ==> r.value == presupuesto
    ensures r == CleanPresupuesto(presupuesto)
  {
    WithMinValue(CleanPresupuesto(presupuesto), "presupuesto", PresupuestoMin)
  }

  /** `clean_precio`, then `MinValueValidator(0)`: a price of zero passes both. */
  function PrecioValidation(precio: Option<Cents>): (r: Cleaned<Option<Cents>>)
    ensures r.Rejected? <==> precio.Some? && precio.value < PrecioMin
    ensures r.Ok? ==> r.value == precio
    ensures precio == Some(0) ==> r == Ok(Some(0))
  {
    WithMinValue(CleanPrecio(precio), "precio", PrecioMin)
  }

  /** `clean_cantidad`, then `MinValueValidator(1)`: the validator refuses the
      quantity zero that `clean_cantidad` lets through, so the item forms
      refuse exactly the quantities below 1. */
  function CantidadValidation(cantidad: Option<int>): (r: Cleaned<Option<int>>)
    ensures r.Rejected? <==> cantidad.Some? && cantidad.value < CantidadMin
    ensures r.Ok? ==> r.value == cantidad
    ensures r.Rejected? && cantidad.value < 0 ==> r.errors == map["cantidad" := [CantidadMessage]]
    ensures cantidad == Some(0) ==> r == Rejected(map["cantidad" := [MinValueMessage(CantidadMin)]])
  {
    WithMinValue(CleanCantidad(cantidad), "cantidad", CantidadMin)
  }

  /** Zero passes `clean_cantidad` but not the item models' validator. */
  lemma CantidadZeroRefusedByValidator()
    ensures CleanCantidad(Some(0)) == Ok(Some(0))
    ensures CantidadValidation(Some(0)).Rejected?
    ensures CantidadValidation(Some(1)) == Ok(Some(1))
  {
  }

  // ------------------------------------------------- ProductoHardwareForm.clean

  /** A value in a form's `cleaned_data`. */
  datatype FieldValue = Text(text: string) | Number(number: int) | Flag(flag: bool) | Instance(pk: int) | Null

  /** Python truthiness of a cleaned value. */
  predicate TruthyValue(v: FieldValue) {
    match v
    case Text(t) => t != ""
    case Number(n) => n != 0
    case Flag(b) => b
    case Instance(_) => true
    case Null => false
  }

  type CleanedData = map<string, FieldValue>

  /** `cleaned_data.get(key)` is truthy. */
  predicate Given(cd: CleanedData, key: string) {
    key in cd && TruthyValue(cd[key])
  }

  /** `cleaned_data.get('tipo') == 'otros'`. */
  predicate TipoIsOtros(cd: CleanedData) {
    "tipo" in cd && cd["tipo"] == Text("otros")
  }

  /** `add_error(field, message)`: the message is appended to the field's errors. */
  function WithError(errors: ErrorDict, field: string, message: string): ErrorDict {
    errors[field := (if field in errors then errors[field] else []) + [message]]
  }

  /** The cleaned data after `clean()`. With "otros" and no custom type, the
      error removes `tipo_personalizado` from the cleaned data (as
      `add_error` does); with any other type a custom type is cleared. */
  function ProductoCleanedData(cd: CleanedData): CleanedData {
    if TipoIsOtros(cd) && !Given(cd, "tipo_personalizado") then cd - {"tipo_personalizado"}
    else if !TipoIsOtros(cd) && Given(cd, "tipo_personalizado") then cd["tipo_personalizado" := Text("")]
    else cd
  }

  /** The form's errors after `clean()`. */
  function ProductoCleanErrors(cd: CleanedData, errors: ErrorDict): ErrorDict {
    if TipoIsOtros(cd) && !Given(cd, "tipo_personalizado") then
      WithError(errors, "tipo_personalizado", TipoPersonalizadoMessage)
    else errors
  }

  /** A ProductoHardwareForm in the middle of validation: what its fields
      cleaned to so far and the errors recorded so far. */
  class ProductoHardwareForm {
    var cleaned_data: CleanedData
    var errors: ErrorDict

    constructor (cleaned_data: CleanedData, errors: ErrorDict)
      ensures this.cleaned_data == cleaned_data && this.errors == errors
    {
      this.cleaned_data := cleaned_data;
      this.errors := errors;
    }

    /** `add_error`: records the message and drops the field from the cleaned data. */
    method AddError(field: string, message: string)
      modifies this
      ensures errors == WithError(old(errors), field, message)
      ensures cleaned_data == old(cleaned_data) - {field}
    {
      errors := WithError(errors, field, message);
      cleaned_data := cleaned_data - {field};
    }

    /** `clean()`. */
    method Clean() returns (r: CleanedData)
      modifies this
      ensures cleaned_data == ProductoCleanedData(old(cleaned_data))
      ensures errors == ProductoCleanErrors(old(cleaned_data), old(errors))
      ensures r == cleaned_data
    {
      var tipoOtros := TipoIsOtros(cleaned_data);
      var personalizado := Given(cleaned_data, "tipo_personalizado");
      if tipoOtros && !personalizado {
        AddError("tipo_personalizado", TipoPersonalizadoMessage);
      }
      if !tipoOtros && personalizado {
        cleaned_data := cleaned_data["tipo_personalizado" := Text("")];
      }
      r := cleaned_data;
    }
  }

  /** `clean()` adds an error, and only on `tipo_personalizado`, exactly when
      "otros" is chosen without a custom type; a custom type given with any
      other type is cleared silently. */
  lemma ProductoCleanSpec(cd: CleanedData, errors: ErrorDict)
    ensures ProductoCleanErrors(cd, errors) != errors <==> TipoIsOtros(cd) && !Given(cd, "tipo_personalizado")
    ensures ProductoCleanErrors(cd, errors) != errors ==>
              ProductoCleanErrors(cd, errors) == WithError(errors, "tipo_personalizado", TipoPersonalizadoMessage)
    ensures !TipoIsOtros(cd) ==> !Given(ProductoCleanedData(cd), "tipo_personalizado")
    ensures !TipoIsOtros(cd) && Given(cd, "tipo_personalizado") ==>
              ProductoCleanedData(cd)["tipo_personalizado"] == Text("")
    ensures TipoIsOtros(cd) && Given(cd, "tipo_personalizado") ==> ProductoCleanedData(cd) == cd
  {
    if TipoIsOtros(cd) && !Given(cd, "tipo_personalizado") {
      var e := WithError(errors, "tipo_personalizado", TipoPersonalizadoMessage);
      assert "tipo_personalizado" in e && |e["tipo_personalizado"]| > 0;
      assert e != errors by {
        if "tipo_personalizado" in errors {
          assert |e["tipo_personalizado"]| == |errors["tipo_personalizado"]| + 1;
        }
      }
    }
  }

  /** No cleaned field other than `tipo_personalizado` changes. */
  lemma ProductoCleanKeepsOtherFields(cd: CleanedData, key: string)
    requires key != "tipo_personalizado"
    ensures key in ProductoCleanedData(cd) <==> key in cd
    ensures key in cd ==> ProductoCleanedData(cd)[key] == cd[key]
  {
  }

  /** The normalisation is idempotent: cleaning the cleaned data again
      changes nothing more. */
  lemma ProductoCleanIdempotent(cd: CleanedData)
    ensures ProductoCleanedData(ProductoCleanedData(cd)) == ProductoCleanedData(cd)
  {
    var once := ProductoCleanedData(cd);
    assert TipoIsOtros(once) == TipoIsOtros(cd);
    if !TipoIsOtros(cd) && Given(cd, "tipo_personalizado") {
      assert !Given(once, "tipo_personalizado");
    }
  }

  /** `tipo_personalizado` is optional as a field: a form whose type is not
      "otros" gets no error from `clean()` whether the custom type is
      missing, empty or given. */
  lemma TipoPersonalizadoNotRequired(cd: CleanedData, errors: ErrorDict)
    requires !TipoIsOtros(cd)
    ensures ProductoCleanErrors(cd, errors) == errors
    ensures ProductoCleanErrors(cd - {"tipo_personalizado"}, errors) == errors
  {
  }

  /** Form and model agree: when the type and the custom type come out of
      `clean()` as texts (so no error removed the custom type), the product
      built from the cleaned data passes the model's own `clean()`. */
  lemma FormCleanImpliesModelClean(cd: CleanedData, p: ProductoHardware)
    requires "tipo" in cd && cd["tipo"].Text?
    requires "tipo_personalizado" in ProductoCleanedData(cd) && ProductoCleanedData(cd)["tipo_personalizado"].Text?
    requires p.tipo == cd["tipo"].text
    requires p.tipo_personalizado == ProductoCleanedData(cd)["tipo_personalizado"].text
    ensures ProductoClean(p).Valid?
  {
  }
}
