/** The legacy savings form (src/components/FormularioAhorro.tsx): checks the
    raw fields, emits an `Ahorro` carrying a bank only for transfers and a
    target only when one was typed, and resets itself after a submission. */
module FormularioAhorro {
  import opened Js

  datatype TipoAhorro = Efectivo | Transferencia

  /** The form's fields as typed or selected by the user. */
  datatype Form = Form(cantidad: string, descripcion: string, tipoAhorro: TipoAhorro,
                       bancoId: string, meta: string, fecha: string)

  /** The record handed to `onSubmit` (dates are kept as their text). */
  datatype Ahorro = Ahorro(cantidad: Num, descripcion: string, tipoAhorro: TipoAhorro,
                           bancoId: Option<string>, meta: Option<Num>, fecha: string)

  datatype Rechazo = CamposObligatorios | FaltaBanco

  /** The form as first shown and after every successful submission. */
  function Inicial(hoy: string): Form {
    Form("", "", Efectivo, "", "", hoy)
  }

  /** A record this form can emit: a description, and a non-empty bank id
      exactly when the saving is a transfer. */
  predicate BienFormado(a: Ahorro) {
    && a.descripcion != ""
    && (a.bancoId.Some? <==> a.tipoAhorro == Transferencia)
    && (a.bancoId.Some? ==> a.bancoId.value != "")
  }

  /** `handleSubmit`'s checks and the record it emits, `number` being `Number`. */
  function Validar(f: Form, number: Parser): (r: Result<Ahorro, Rechazo>)
    ensures r == Err(CamposObligatorios) <==> (f.cantidad == "" || f.descripcion == "")
    ensures r == Err(FaltaBanco) <==>
      (f.cantidad != "" && f.descripcion != "" && f.tipoAhorro == Transferencia && f.bancoId == "")
    ensures r.Ok? ==> BienFormado(r.value)
    ensures r.Ok? ==> (r.value.cantidad == number(f.cantidad) && r.value.descripcion == f.descripcion
                       && r.value.tipoAhorro == f.tipoAhorro && r.value.fecha == f.fecha)
    ensures r.Ok? ==> (r.value.meta.None? <==> f.meta == "")
    ensures r.Ok? && f.meta != "" ==> r.value.meta == Some(number(f.meta))
    ensures r.Ok? ==> r.value.bancoId == (if f.tipoAhorro == Transferencia then Some(f.bancoId) else None)
  {
    if f.cantidad == "" || f.descripcion == "" then Err(CamposObligatorios)
    else if f.tipoAhorro == Transferencia && f.bancoId == "" then Err(FaltaBanco)
    else Ok(Ahorro(number(f.cantidad), f.descripcion, f.tipoAhorro,
                   if f.tipoAhorro == Transferencia then Some(f.bancoId) else None,
                   if f.meta != "" then Some(number(f.meta)) else None,
                   f.fecha))
  }

  /** A form filled in from a record, with the given amount and target texts. */
  function Rellenar(a: Ahorro, cantidad: string, meta: string): Form {
    Form(cantidad, a.descripcion, a.tipoAhorro, a.bancoId.GetOr(""), meta, a.fecha)
  }

  /** Every well-formed record is emitted by some form: the one filled in from
      it, given texts that convert back to its amount and target. */
  lemma ValidarAlcanzaTodo(a: Ahorro, cantidad: string, meta: string, number: Parser)
    requires BienFormado(a) && cantidad != "" && number(cantidad) == a.cantidad
    requires if a.meta.None? then meta == "" else meta != "" && number(meta) == a.meta.value
    ensures Validar(Rellenar(a, cantidad, meta), number) == Ok(a)
  {
  }

  class Component {
    var form: Form

    constructor (hoy: string)
      ensures form == Inicial(hoy)
    {
      form := Inicial(hoy);
    }

    /** `handleSubmit`: on acceptance the record goes to `onSubmit` and the
        form is reset to a cash saving with empty fields; on refusal nothing
        changes. */
    method HandleSubmit(number: Parser, hoy: string) returns (r: Result<Ahorro, Rechazo>)
      modifies this
      ensures r == Validar(old(form), number)
      ensures form == if r.Ok? then Inicial(hoy) else old(form)
    {
      r := Validar(form, number);
      if r.Ok? {
        form := Inicial(hoy);
      }
    }

    /** The saving-type selector: sets the type and clears the bank. */
    method CambiarTipoAhorro(t: TipoAhorro)
      modifies this
      ensures form == old(form).(tipoAhorro := t, bancoId := "")
    {
      form := form.(tipoAhorro := t, bancoId := "");
    }
  }
}
