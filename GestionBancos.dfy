/** The legacy bank manager (src/components/GestionBancos.tsx): one form that
    either adds a bank or, while `editando` holds an id, edits that bank. */
module GestionBancos {
  import opened Js
  import opened Lists

  /** The form's fields; `tipo` is the account kind chosen in a selector. */
  datatype Form = Form(nombre: string, tipo: string, numeroCuenta: string)

  /** The bank handed to `onAgregar` / `onEditar`. */
  datatype Banco = Banco(nombre: string, tipo: string, numeroCuenta: Option<string>)

  datatype Rechazo = CamposRequeridos

  datatype Llamada = Agregar(banco: Banco) | Editar(id: Id, banco: Banco)

  /** The empty form: a savings account ("ahorro") with no name or number. */
  const Vacio: Form := Form("", "ahorro", "")

  /** `handleSubmit`'s check and the bank it builds. */
  function Construir(f: Form): (r: Result<Banco, Rechazo>)
    ensures r.Err? <==> (f.nombre == "" || f.tipo == "")
    ensures r.Ok? ==> r.value.nombre == f.nombre && r.value.tipo == f.tipo
    ensures r.Ok? ==> (r.value.numeroCuenta.None? <==> f.numeroCuenta == "")
    ensures r.Ok? && r.value.numeroCuenta.Some? ==> r.value.numeroCuenta.value == f.numeroCuenta
  {
    if f.nombre == "" || f.tipo == "" then Err(CamposRequeridos)
    else Ok(Banco(f.nombre, f.tipo, NonEmpty(f.numeroCuenta)))
  }

  /** `iniciarEdicion`'s form: a missing account number shows as "". */
  function Cargar(b: Banco): Form {
    Form(b.nombre, b.tipo, b.numeroCuenta.GetOr(""))
  }

  predicate EnEdicion(editando: Option<Id>) {
    editando.Some? && editando.value != ""
  }

  /** Loading a bank and submitting it untouched rebuilds the same bank,
      unless its name or kind is empty or its account number is present but
      empty: such a number comes back absent. */
  lemma CargarConstruirIdaYVuelta(b: Banco)
    ensures Construir(Cargar(b)) == Ok(b) <==>
      (b.nombre != "" && b.tipo != "" && b.numeroCuenta != Some(""))
    ensures b.nombre != "" && b.tipo != "" && b.numeroCuenta == Some("") ==>
      Construir(Cargar(b)) == Ok(b.(numeroCuenta := None))
  {
  }

  class Component {
    var mostrarFormulario: bool
    var editando: Option<Id>
    var form: Form

    constructor ()
      ensures !mostrarFormulario && editando == None && form == Vacio
    {
      mostrarFormulario := false;
      editando := None;
      form := Vacio;
    }

    /** `handleSubmit`: refused submissions change nothing; otherwise exactly
        one of `onEditar` (with the held id, leaving edit mode) or `onAgregar`
        (hiding the form) fires, and the form is cleared. */
    method HandleSubmit() returns (r: Result<Llamada, Rechazo>)
      modifies this
      ensures Construir(old(form)).Err? ==>
        r.Err? && form == old(form) && editando == old(editando) && mostrarFormulario == old(mostrarFormulario)
      ensures Construir(old(form)).Ok? ==> form == Vacio
      ensures Construir(old(form)).Ok? && EnEdicion(old(editando)) ==>
        r == Ok(Editar(old(editando).value, Construir(old(form)).value))
        && editando == None && mostrarFormulario == old(mostrarFormulario)
      ensures Construir(old(form)).Ok? && !EnEdicion(old(editando)) ==>
        r == Ok(Agregar(Construir(old(form)).value)) && editando == old(editando) && !mostrarFormulario
    {
      var b := Construir(form);
      if b.Err? {
        return Err(b.error);
      }
      if EnEdicion(editando) {
        r := Ok(Editar(editando.value, b.value));
        editando := None;
      } else {
        r := Ok(Agregar(b.value));
        mostrarFormulario := false;
      }
      LimpiarFormulario();
    }

    /** `limpiarFormulario`. */
    method LimpiarFormulario()
      modifies this
      ensures form == Vacio && editando == old(editando) && mostrarFormulario == old(mostrarFormulario)
    {
      form := Vacio;
    }

    /** `iniciarEdicion`: loads the bank, remembers its id and shows the form. */
    method IniciarEdicion(b: Rec<Banco>)
      modifies this
      ensures form == Cargar(b.val) && editando == Some(b.id) && mostrarFormulario
    {
      form := Cargar(b.val);
      editando := Some(b.id);
      mostrarFormulario := true;
    }

    /** The cancel button. */
    method Cancelar()
      modifies this
      ensures !mostrarFormulario && editando == None && form == Vacio
    {
      mostrarFormulario := false;
      editando := None;
      LimpiarFormulario();
    }
  }
}
