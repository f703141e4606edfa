/** The debt form (src/components/FormularioDeuda.tsx): checks the raw
    fields, parses the price, emits a trimmed `Deuda` and clears itself. */
module FormularioDeuda {
  import opened Js

  datatype Form = Form(descripcion: string, precio: string, fecha_vencimiento: string, interes: string)

  /** The record handed to `onAgregar`; its price is a positive value. */
  datatype Deuda = Deuda(descripcion: string, precio: real, fecha_vencimiento: string,
                         interes: Option<Num>)

  datatype Rechazo = CamposRequeridos | PrecioInvalido

  const Vacio: Form := Form("", "", "", "")

  /** A record this form can emit: a trimmed, non-empty description, a
      positive price and a due date. */
  predicate BienFormado(d: Deuda) {
    d.descripcion != "" && Trim(d.descripcion) == d.descripcion && d.precio > 0.0
    && d.fecha_vencimiento != ""
  }

  function Validar(f: Form, parseFloat: Parser): (r: Result<Deuda, Rechazo>)
    ensures r == Err(CamposRequeridos) <==>
      (IsBlank(f.descripcion) || f.precio == "" || f.fecha_vencimiento == "")
    ensures r == Err(PrecioInvalido) <==>
      (!IsBlank(f.descripcion) && f.precio != "" && f.fecha_vencimiento != ""
       && (parseFloat(f.precio).NaN? || AtMost(parseFloat(f.precio), 0.0)))
    ensures r.Ok? ==> BienFormado(r.value)
    ensures r.Ok? ==> (r.value.descripcion == Trim(f.descripcion)
                       && parseFloat(f.precio) == Num(r.value.precio)
                       && r.value.fecha_vencimiento == f.fecha_vencimiento)
    ensures r.Ok? ==> (r.value.interes.None? <==> f.interes == "")
    ensures r.Ok? && f.interes != "" ==> r.value.interes == Some(parseFloat(f.interes))
  {
    TrimEmptyIffBlank(f.descripcion);
    TrimIdempotent(f.descripcion);
    if Trim(f.descripcion) == "" || f.precio == "" || f.fecha_vencimiento == "" then Err(CamposRequeridos)
    else
      var precio := parseFloat(f.precio);
      if precio.NaN? || AtMost(precio, 0.0) then Err(PrecioInvalido)
      else Ok(Deuda(Trim(f.descripcion), precio.value, f.fecha_vencimiento,
                    if f.interes != "" then Some(parseFloat(f.interes)) else None))
  }

  /** Every well-formed record is emitted by some form: the one holding its
      fields, given texts that parse back to its price and interest. */
  lemma ValidarAlcanzaTodo(d: Deuda, precio: string, interes: string, parseFloat: Parser)
    requires BienFormado(d) && precio != "" && parseFloat(precio) == Num(d.precio)
    requires if d.interes.None? then interes == "" else interes != "" && parseFloat(interes) == d.interes.value
    ensures Validar(Form(d.descripcion, precio, d.fecha_vencimiento, interes), parseFloat) == Ok(d)
  {
    TrimEmptyIffBlank(d.descripcion);
  }

  class Component {
    var form: Form

    constructor ()
      ensures form == Vacio
    {
      form := Vacio;
    }

    /** `handleSubmit`: on acceptance `onAgregar` gets the record once (the
        `Ok` value) and every field is cleared; on refusal nothing changes. */
    method HandleSubmit(parseFloat: Parser) returns (r: Result<Deuda, Rechazo>)
      modifies this
      ensures r == Validar(old(form), parseFloat)
      ensures form == if r.Ok? then Vacio else old(form)
    {
      r := Validar(form, parseFloat);
      if r.Ok? {
        form := Vacio;
      }
    }
  }
}
