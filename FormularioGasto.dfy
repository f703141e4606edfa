/** The legacy expense form (src/components/FormularioGasto.tsx): checks the
    raw fields, emits a `Movimiento` with exactly the payment reference its
    payment type calls for, and resets itself after a submission. */
module FormularioGasto {
  import opened Js

  datatype TipoPago = Efectivo | Tarjeta | Transferencia
  datatype TipoMovimiento = Ingreso | Gasto

  /** The form's text fields as typed by the user. */
  datatype Form = Form(cantidad: string, descripcion: string, categoria: string, fecha: string,
                       tipoPago: TipoPago, tarjetaId: string, bancoId: string)

  /** The record handed to `onSubmit` (dates are kept as their text). */
  datatype Movimiento = Movimiento(cantidad: Num, descripcion: string, categoria: string,
                                   fecha: string, tipo: TipoMovimiento, tipoPago: TipoPago,
                                   tarjetaId: Option<string>, bancoId: Option<string>)

  /** Why a submission was refused; each has its own error toast. */
  datatype Rechazo = CamposObligatorios | FaltaTarjeta | FaltaBanco

  /** The category preselected by the form. */
  const CategoriaInicial: string := "Alimentación"

  /** The form as first shown and after every successful submission. */
  function Inicial(hoy: string): Form {
    Form("", "", CategoriaInicial, hoy, Efectivo, "", "")
  }

  /** A record this form can emit: an expense, with a description, carrying a
      card id exactly when paid by card and a bank id exactly when paid by
      transfer, never both, and never an empty id. */
  predicate BienFormado(m: Movimiento) {
    && m.tipo == Gasto
    && m.descripcion != ""
    && (m.tarjetaId.Some? <==> m.tipoPago == Tarjeta)
    && (m.bancoId.Some? <==> m.tipoPago == Transferencia)
    && (m.tarjetaId.Some? ==> m.tarjetaId.value != "")
    && (m.bancoId.Some? ==> m.bancoId.value != "")
  }

  /** `handleSubmit`'s checks and the record it emits, `number` being `Number`. */
  function Validar(f: Form, number: Parser): (r: Result<Movimiento, Rechazo>)
    ensures r == Err(CamposObligatorios) <==> (f.cantidad == "" || f.descripcion == "")
    ensures r == Err(FaltaTarjeta) <==>
      (f.cantidad != "" && f.descripcion != "" && f.tipoPago == Tarjeta && f.tarjetaId == "")
    ensures r == Err(FaltaBanco) <==>
      (f.cantidad != "" && f.descripcion != "" && f.tipoPago == Transferencia && f.bancoId == "")
    ensures r.Ok? ==> BienFormado(r.value)
    ensures r.Ok? ==> (r.value.cantidad == number(f.cantidad) && r.value.descripcion == f.descripcion
                       && r.value.categoria == f.categoria && r.value.fecha == f.fecha
                       && r.value.tipoPago == f.tipoPago)
    ensures r.Ok? ==> !(r.value.tarjetaId.Some? && r.value.bancoId.Some?)
    ensures r.Ok? ==> r.value.tarjetaId == (if f.tipoPago == Tarjeta then Some(f.tarjetaId) else None)
                      && r.value.bancoId == (if f.tipoPago == Transferencia then Some(f.bancoId) else None)
  {
    if f.cantidad == "" || f.descripcion == "" then Err(CamposObligatorios)
    else if f.tipoPago == Tarjeta && f.tarjetaId == "" then Err(FaltaTarjeta)
    else if f.tipoPago == Transferencia && f.bancoId == "" then Err(FaltaBanco)
    else Ok(Movimiento(number(f.cantidad), f.descripcion, f.categoria, f.fecha, Gasto, f.tipoPago,
                       if f.tipoPago == Tarjeta then Some(f.tarjetaId) else None,
                       if f.tipoPago == Transferencia then Some(f.bancoId) else None))
  }

  /** A form filled in from a record, with `texto` in the amount field. */
  function Rellenar(m: Movimiento, texto: string): Form {
    Form(texto, m.descripcion, m.categoria, m.fecha, m.tipoPago,
         m.tarjetaId.GetOr(""), m.bancoId.GetOr(""))
  }

  /** Every well-formed record is emitted by some form: the one filled in from
      it, given amount text that converts back to its amount. */
  lemma ValidarAlcanzaTodo(m: Movimiento, texto: string, number: Parser)
    requires BienFormado(m) && texto != "" && number(texto) == m.cantidad
    ensures Validar(Rellenar(m, texto), number) == Ok(m)
  {
  }

  /** Changing the payment type empties both references, so a card or transfer
      payment chosen that way is refused until a reference is picked again. */
  lemma CambioDeTipoExigeReferencia(f: Form, t: TipoPago, number: Parser)
    requires f.cantidad != "" && f.descripcion != "" && t != Efectivo
    ensures Validar(f.(tipoPago := t, tarjetaId := "", bancoId := ""), number)
            == Err(if t == Tarjeta then FaltaTarjeta else FaltaBanco)
  {
  }

  /** The form component's state (`form`). */
  class Component {
    var form: Form

    constructor (hoy: string)
      ensures form == Inicial(hoy)
    {
      form := Inicial(hoy);
    }

    /** `handleSubmit`: on acceptance the record goes to `onSubmit` (the `Ok`
        value) and the form returns to its defaults; on refusal nothing changes. */
    method HandleSubmit(number: Parser, hoy: string) returns (r: Result<Movimiento, Rechazo>)
      modifies this
      ensures r == Validar(old(form), number)
      ensures form == if r.Ok? then Inicial(hoy) else old(form)
    {
      r := Validar(form, number);
      if r.Ok? {
        form := Inicial(hoy);
      }
    }

    /** The payment-type selector: sets the type and clears both references. */
    method CambiarTipoPago(t: TipoPago)
      modifies this
      ensures form == old(form).(tipoPago := t, tarjetaId := "", bancoId := "")
    {
      form := form.(tipoPago := t, tarjetaId := "", bancoId := "");
    }
  }
}
