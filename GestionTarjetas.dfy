/** The legacy card manager (src/components/GestionTarjetas.tsx): one form
    that either adds a card or, while `editando` holds an id, edits that card. */
module GestionTarjetas {
  import opened Js
  import opened Lists

  /** The form's text fields. */
  datatype Form = Form(nombre: string, banco: string, limite: string, fechaCorte: string, fechaPago: string)

  /** The card handed to `onAgregar` / `onEditar`. */
  datatype Tarjeta = Tarjeta(nombre: string, banco: string, limite: Num, fechaCorte: Num, fechaPago: Num)

  datatype Rechazo = CamposIncompletos

  /** Which callback a submission fired. */
  datatype Llamada = Agregar(tarjeta: Tarjeta) | Editar(id: Id, tarjeta: Tarjeta)

  const Vacio: Form := Form("", "", "", "", "")

  /** Some field is empty. */
  predicate Incompleto(f: Form) {
    f.nombre == "" || f.banco == "" || f.limite == "" || f.fechaCorte == "" || f.fechaPago == ""
  }

  /** `handleSubmit`'s check and the card it builds, `number` being `Number`
      (day-of-month ranges are not checked by the handler). */
  function Construir(f: Form, number: Parser): (r: Result<Tarjeta, Rechazo>)
    ensures r.Err? <==> Incompleto(f)
    ensures r.Ok? ==> (r.value.nombre == f.nombre && r.value.banco == f.banco
                       && r.value.limite == number(f.limite) && r.value.fechaCorte == number(f.fechaCorte)
                       && r.value.fechaPago == number(f.fechaPago))
  {
    if Incompleto(f) then Err(CamposIncompletos)
    else Ok(Tarjeta(f.nombre, f.banco, number(f.limite), number(f.fechaCorte), number(f.fechaPago)))
  }

  /** `iniciarEdicion`'s form: the card's values, numbers through `toString`. */
  function Cargar(t: Tarjeta, toString: Printer): Form {
    Form(t.nombre, t.banco, toString(t.limite), toString(t.fechaCorte), toString(t.fechaPago))
  }

  /** `if (editando)`: an id is held and it is not the (falsy) empty string. */
  predicate EnEdicion(editando: Option<Id>) {
    editando.Some? && editando.value != ""
  }

  /** Loading a card into the form and submitting it untouched rebuilds the
      same card, when `Number` reads back what `toString` wrote. */
  lemma CargarConstruirIdaYVuelta(t: Tarjeta, toString: Printer, number: Parser)
    requires t.nombre != "" && t.banco != ""
    requires toString(t.limite) != "" && toString(t.fechaCorte) != "" && toString(t.fechaPago) != ""
    requires number(toString(t.limite)) == t.limite && number(toString(t.fechaCorte)) == t.fechaCorte
    requires number(toString(t.fechaPago)) == t.fechaPago
    ensures Construir(Cargar(t, toString), number) == Ok(t)
  {
  }

  class Component {
    var mostrarFormulario: bool
    var editando: Option<Id>
    var form: Form

    constructor ()
      ensures !mostrarFormulario && editando == None && form == Vacio
    {
      mostrarFormulario := false;
      editando := None;
      form := Vacio;
    }

    /** `handleSubmit`. A refused submission changes nothing and fires no callback.
        Otherwise exactly one callback fires: `onEditar` with the held id (and
        edit mode ends) or `onAgregar` (and the form is hidden); then the form
        is cleared. */
    method HandleSubmit(number: Parser) returns (r: Result<Llamada, Rechazo>)
      modifies this
      ensures Construir(old(form), number).Err? ==>
        r.Err? && form == old(form) && editando == old(editando) && mostrarFormulario == old(mostrarFormulario)
      ensures Construir(old(form), number).Ok? ==> form == Vacio
      ensures Construir(old(form), number).Ok? && EnEdicion(old(editando)) ==>
        r == Ok(Editar(old(editando).value, Construir(old(form), number).value))
        && editando == None && mostrarFormulario == old(mostrarFormulario)
      ensures Construir(old(form), number).Ok? && !EnEdicion(old(editando)) ==>
        r == Ok(Agregar(Construir(old(form), number).value))
        && editando == old(editando) && !mostrarFormulario
    {
      var t := Construir(form, number);
      if t.Err? {
        return Err(t.error);
      }
      if EnEdicion(editando) {
        r := Ok(Editar(editando.value, t.value));
        editando := None;
      } else {
        r := Ok(Agregar(t.value));
        mostrarFormulario := false;
      }
      LimpiarFormulario();
    }

    /** `limpiarFormulario`. */
    method LimpiarFormulario()
      modifies this
      ensures form == Vacio && editando == old(editando) && mostrarFormulario == old(mostrarFormulario)
    {
      form := Vacio;
    }

    /** `iniciarEdicion`: loads the card, remembers its id and shows the form. */
    method IniciarEdicion(t: Rec<Tarjeta>, toString: Printer)
      modifies this
      ensures form == Cargar(t.val, toString) && editando == Some(t.id) && mostrarFormulario
    {
      form := Cargar(t.val, toString);
      editando := Some(t.id);
      mostrarFormulario := true;
    }

    /** The cancel button: hides the form, leaves edit mode, clears the form. */
    method Cancelar()
      modifies this
      ensures !mostrarFormulario && editando == None && form == Vacio
    {
      mostrarFormulario := false;
      editando := None;
      LimpiarFormulario();
    }
  }

  /** Editing a stored card and saving it untouched asks `onEditar` to put
      the same card back under its own id. */
  method EditarSinCambios(c: Component, t: Rec<Tarjeta>, toString: Printer, number: Parser)
    returns (r: Result<Llamada, Rechazo>)
    requires t.id != "" && t.val.nombre != "" && t.val.banco != ""
    requires toString(t.val.limite) != "" && toString(t.val.fechaCorte) != "" && toString(t.val.fechaPago) != ""
    requires number(toString(t.val.limite)) == t.val.limite
    requires number(toString(t.val.fechaCorte)) == t.val.fechaCorte
    requires number(toString(t.val.fechaPago)) == t.val.fechaPago
    modifies c
    ensures r == Ok(Editar(t.id, t.val)) && c.editando == None && c.form == Vacio && c.mostrarFormulario
  {
    c.IniciarEdicion(t, toString);
    CargarConstruirIdaYVuelta(t.val, toString, number);
    r := c.HandleSubmit(number);
  }
}
