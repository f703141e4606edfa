/** The legacy investment form (src/components/FormularioInversion.tsx):
    checks the raw fields, parses the price, emits an `Inversion` whose price
    is positive, and resets itself after a submission. */
module FormularioInversion {
  import opened Js

  datatype TipoInversion = Acciones | Criptomonedas | BienesRaices | Otros
  datatype TipoPago = Efectivo | Transferencia

  datatype Form = Form(descripcion: string, precio: string, tipo: TipoInversion, tipoPago: TipoPago,
                       bancoId: string, retornoEsperado: string, fecha: string)

  /** The record handed to `onSubmit`; the price has passed the NaN and
      positivity checks, so it is a plain positive value. */
  datatype Inversion = Inversion(descripcion: string, precio: real, tipo: TipoInversion,
                                 tipoPago: TipoPago, bancoId: Option<string>,
                                 retornoEsperado: Option<Num>, fecha: string)

  datatype Rechazo = CamposObligatorios | FaltaBanco | PrecioInvalido

  function Inicial(hoy: string): Form {
    Form("", "", Acciones, Efectivo, "", "", hoy)
  }

  /** `isNaN(p) || p <= 0`. */
  predicate PrecioRechazado(p: Num) {
    p.NaN? || AtMost(p, 0.0)
  }

  /** A record this form can emit: a description, a positive price, and a
      non-empty bank id exactly when paid by transfer. */
  predicate BienFormado(i: Inversion) {
    && i.descripcion != ""
    && i.precio > 0.0
    && (i.bancoId.Some? <==> i.tipoPago == Transferencia)
    && (i.bancoId.Some? ==> i.bancoId.value != "")
  }

  /** `handleSubmit`'s checks in their order (the bank check comes before the
      price is parsed) and the record it emits. */
  function Validar(f: Form, parseFloat: Parser): (r: Result<Inversion, Rechazo>)
    ensures r == Err(CamposObligatorios) <==> (f.descripcion == "" || f.precio == "")
    ensures r == Err(FaltaBanco) <==>
      (f.descripcion != "" && f.precio != "" && f.tipoPago == Transferencia && f.bancoId == "")
    ensures r == Err(PrecioInvalido) <==>
      (f.descripcion != "" && f.precio != "" && !(f.tipoPago == Transferencia && f.bancoId == "")
       && PrecioRechazado(parseFloat(f.precio)))
    ensures r.Ok? ==> BienFormado(r.value) && parseFloat(f.precio) == Num(r.value.precio)
    ensures r.Ok? ==> (r.value.descripcion == f.descripcion && r.value.tipo == f.tipo
                       && r.value.tipoPago == f.tipoPago && r.value.fecha == f.fecha)
    ensures r.Ok? ==> (r.value.retornoEsperado.None? <==> f.retornoEsperado == "")
    ensures r.Ok? && f.retornoEsperado != "" ==> r.value.retornoEsperado == Some(parseFloat(f.retornoEsperado))
    ensures r.Ok? ==> r.value.bancoId == (if f.tipoPago == Transferencia then Some(f.bancoId) else None)
  {
    if f.descripcion == "" || f.precio == "" then Err(CamposObligatorios)
    else if f.tipoPago == Transferencia && f.bancoId == "" then Err(FaltaBanco)
    else
      var precio := parseFloat(f.precio);
      if PrecioRechazado(precio) then Err(PrecioInvalido)
      else Ok(Inversion(f.descripcion, precio.value, f.tipo, f.tipoPago,
                        if f.tipoPago == Transferencia then Some(f.bancoId) else None,
                        if f.retornoEsperado != "" then Some(parseFloat(f.retornoEsperado)) else None,
                        f.fecha))
  }

  /** A price that parses to NaN or to a value not above zero is refused,
      whatever else the form holds: `0`, a negative price and a non-numeric
      one never reach `onSubmit`. */
  lemma PrecioNoPositivoNuncaSeEmite(f: Form, parseFloat: Parser)
    requires PrecioRechazado(parseFloat(f.precio))
    ensures Validar(f, parseFloat).Err?
  {
  }

  function Rellenar(i: Inversion, precio: string, retorno: string): Form {
    Form(i.descripcion, precio, i.tipo, i.tipoPago, i.bancoId.GetOr(""), retorno, i.fecha)
  }

  /** Every well-formed record is emitted by some form: the one filled in from
      it, given texts that parse back to its price and expected return. */
  lemma ValidarAlcanzaTodo(i: Inversion, precio: string, retorno: string, parseFloat: Parser)
    requires BienFormado(i) && precio != "" && parseFloat(precio) == Num(i.precio)
    requires if i.retornoEsperado.None? then retorno == ""
             else retorno != "" && parseFloat(retorno) == i.retornoEsperado.value
    ensures Validar(Rellenar(i, precio, retorno), parseFloat) == Ok(i)
  {
  }

  class Component {
    var form: Form

    constructor (hoy: string)
      ensures form == Inicial(hoy)
    {
      form := Inicial(hoy);
    }

    /** `handleSubmit`: on acceptance the record goes to `onSubmit` and the
        form returns to shares paid in cash; on refusal nothing changes. */
    method HandleSubmit(parseFloat: Parser, hoy: string) returns (r: Result<Inversion, Rechazo>)
      modifies this
      ensures r == Validar(old(form), parseFloat)
      ensures form == if r.Ok? then Inicial(hoy) else old(form)
    {
      r := Validar(form, parseFloat);
      if r.Ok? {
        form := Inicial(hoy);
      }
    }

    /** The payment selector: sets the method and clears the bank. */
    method CambiarTipoPago(t: TipoPago)
      modifies this
      ensures form == old(form).(tipoPago := t, bancoId := "")
    {
      form := form.(tipoPago := t, bancoId := "");
    }
  }
}
