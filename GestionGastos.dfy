/** The remote-backed expense screen (src/components/GestionGastos.tsx): the
    guard chain over the draft, the normalised record handed to
    `createGasto`, and what each outcome of that call does to the list,
    the draft and the reload decision. */
module GestionGastos {
  import opened Js
  import opened Lists
  import S = SupabaseService

  /** The draft `nuevoGasto`, every field as typed. */
  datatype Form = Form(descripcion: string, precio: string, categoria: string, fecha: string,
                       tipo_pago: S.TipoPago, banco_id: string, tarjeta_id: string)

  /** Why a submission was refused before calling the service; each has its own toast. */
  datatype Rechazo = DescripcionRequerida | PrecioInvalido | CategoriaRequerida | FaltaTarjeta | FaltaBanco

  /** How a submission ended. */
  datatype Salida =
    | Rechazado(motivo: Rechazo)
    | Registrado(gasto: Rec<S.Gasto>)
    | Fallido(mensaje: string, recarga: bool)

  const MensajeGenerico: string := "Error al registrar el gasto"

  /** The draft as first shown and after each registered expense. */
  function Inicial(hoy: string): Form {
    Form("", "", "", hoy, S.Efectivo, "", "")
  }

  /** `!precio || parseFloat(precio) <= 0`: a NaN price is not refused here. */
  predicate PrecioRechazado(precio: string, parseFloat: Parser) {
    precio == "" || AtMost(parseFloat(precio), 0.0)
  }

  /** The draft passes the three field guards. */
  predicate CamposValidos(f: Form, parseFloat: Parser) {
    !IsBlank(f.descripcion) && !PrecioRechazado(f.precio, parseFloat) && !IsBlank(f.categoria)
  }

  /** A record this screen can send: trimmed non-empty description and
      category, a price that is not a number <= 0, the reference its payment
      type calls for, and no empty reference. */
  predicate BienFormado(g: S.Gasto) {
    && g.descripcion != "" && Trim(g.descripcion) == g.descripcion
    && !AtMost(g.precio, 0.0)
    && g.categoria != "" && Trim(g.categoria) == g.categoria
    && (g.tipo_pago == S.Tarjeta ==> g.tarjeta_id.Some?)
    && (g.tipo_pago == S.Transferencia ==> g.banco_id.Some?)
    && (g.banco_id.Some? ==> g.banco_id.value != "")
    && (g.tarjeta_id.Some? ==> g.tarjeta_id.value != "")
  }

  /** `handleSubmit`'s guards, in order, and `gastoData`. */
  function Validar(f: Form, parseFloat: Parser): (r: Result<S.Gasto, Rechazo>)
    ensures r == Err(DescripcionRequerida) <==> IsBlank(f.descripcion)
    ensures r == Err(PrecioInvalido) <==> !IsBlank(f.descripcion) && PrecioRechazado(f.precio, parseFloat)
    ensures r == Err(CategoriaRequerida) <==>
      !IsBlank(f.descripcion) && !PrecioRechazado(f.precio, parseFloat) && IsBlank(f.categoria)
    ensures r == Err(FaltaTarjeta) <==>
      CamposValidos(f, parseFloat) && f.tipo_pago == S.Tarjeta && f.tarjeta_id == ""
    ensures r == Err(FaltaBanco) <==>
      CamposValidos(f, parseFloat) && f.tipo_pago == S.Transferencia && f.banco_id == ""
    ensures r.Ok? ==> BienFormado(r.value)
    ensures r.Ok? ==> (r.value.descripcion == Trim(f.descripcion) && r.value.precio == parseFloat(f.precio)
                       && r.value.categoria == Trim(f.categoria) && r.value.fecha == f.fecha
                       && r.value.tipo_pago == f.tipo_pago)
    ensures r.Ok? ==> r.value.banco_id == NonEmpty(f.banco_id) && r.value.tarjeta_id == NonEmpty(f.tarjeta_id)
  {
    TrimEmptyIffBlank(f.descripcion);
    TrimIdempotent(f.descripcion);
    TrimEmptyIffBlank(f.categoria);
    TrimIdempotent(f.categoria);
    if Trim(f.descripcion) == "" then Err(DescripcionRequerida)
    else if PrecioRechazado(f.precio, parseFloat) then Err(PrecioInvalido)
    else if Trim(f.categoria) == "" then Err(CategoriaRequerida)
    else if f.tipo_pago == S.Tarjeta && f.tarjeta_id == "" then Err(FaltaTarjeta)
    else if f.tipo_pago == S.Transferencia && f.banco_id == "" then Err(FaltaBanco)
    else Ok(S.Gasto(Trim(f.descripcion), parseFloat(f.precio), Trim(f.categoria), f.fecha, f.tipo_pago,
                    NonEmpty(f.banco_id), NonEmpty(f.tarjeta_id)))
  }

  /** A draft filled in from a record, with `precio` as the price text. */
  function Rellenar(g: S.Gasto, precio: string): Form {
    Form(g.descripcion, precio, g.categoria, g.fecha, g.tipo_pago, g.banco_id.GetOr(""), g.tarjeta_id.GetOr(""))
  }

  /** Every well-formed record is produced by some draft: the one filled in
      from it, given price text that parses back to its price. */
  lemma ValidarAlcanzaTodo(g: S.Gasto, precio: string, parseFloat: Parser)
    requires BienFormado(g) && precio != "" && parseFloat(precio) == g.precio
    ensures Validar(Rellenar(g, precio), parseFloat) == Ok(g)
  {
    TrimEmptyIffBlank(g.descripcion);
    TrimEmptyIffBlank(g.categoria);
  }

  /** The draft carries a card id only under card payment and a bank id only
      under transfer, as the selector and the two pickers keep it. */
  predicate Coherente(f: Form) {
    (f.tipo_pago != S.Tarjeta ==> f.tarjeta_id == "") && (f.tipo_pago != S.Transferencia ==> f.banco_id == "")
  }

  /** From a coherent draft the record carries exactly the reference its
      payment type calls for, so never both. */
  lemma UnaSolaReferencia(f: Form, parseFloat: Parser)
    requires Coherente(f) && Validar(f, parseFloat).Ok?
    ensures Validar(f, parseFloat).value.tarjeta_id.Some? <==> f.tipo_pago == S.Tarjeta
    ensures Validar(f, parseFloat).value.banco_id.Some? <==> f.tipo_pago == S.Transferencia
  {
  }

  /** A record that passed this screen's guards is refused by the service's
      own field check exactly when its price is NaN or its date is empty. */
  lemma ServicioRechazaValidado(f: Form, parseFloat: Parser)
    requires Validar(f, parseFloat).Ok?
    ensures !S.CamposGasto(Validar(f, parseFloat).value) <==> parseFloat(f.precio).NaN? || f.fecha == ""
  {
    TrimEmptyIffBlank(f.descripcion);
    TrimEmptyIffBlank(f.categoria);
  }

  /** `error.message || 'Error al registrar el gasto'`. */
  function Mensaje(m: string): (r: string)
    ensures r != ""
    ensures m != "" ==> r == m
  {
    if m == "" then MensajeGenerico else m
  }

  /** What follows the guards: `createGasto` with the probe's answer and the
      insert's outcome, then the `catch`. */
  function Respuesta(g: S.Gasto, conexionOk: bool, insercion: S.Insercion<Rec<S.Gasto>>): (s: Salida)
    ensures !s.Rechazado?
    ensures s.Registrado? <==> conexionOk && S.CamposGasto(g) && insercion.Fila?
    ensures s.Registrado? ==> insercion == S.Fila(s.gasto)
    ensures s.Fallido? ==> s.recarga == Contains(s.mensaje, "conexión")
    ensures !conexionOk ==> s.Fallido? && s.recarga
    ensures conexionOk && !S.CamposGasto(g) ==> s == Fallido(S.PrefijoGasto + S.FaltanCampos, false)
    ensures conexionOk && S.CamposGasto(g) ==>
      (insercion.SinDatos? ==> s == Fallido(S.PrefijoGasto + S.SinRespuestaGasto, false))
      && (insercion.Fallo? ==> s.Fallido? && s.mensaje == S.PrefijoGasto + S.DetalleGasto(insercion.error))
  {
    S.SinConexionMencionaConexion();
    S.FaltanCamposNoMencionaConexion();
    S.SinRespuestaNoMencionaConexion();
    match S.CreateGasto(g, conexionOk, insercion).salida
    case Ok(x) => Registrado(x)
    case Err(m) => Fallido(Mensaje(m), Contains(Mensaje(m), "conexión"))
  }

  /** A whole submission: the guards, then `Respuesta`. */
  function Resultado(f: Form, parseFloat: Parser, conexionOk: bool, insercion: S.Insercion<Rec<S.Gasto>>): (s: Salida)
    ensures s.Rechazado? <==> Validar(f, parseFloat).Err?
    ensures s.Rechazado? ==> s.motivo == Validar(f, parseFloat).error
    ensures s.Registrado? ==> conexionOk && Validar(f, parseFloat).Ok? && S.CamposGasto(Validar(f, parseFloat).value)
                              && insercion == S.Fila(s.gasto)
    ensures s.Fallido? ==> s.recarga == Contains(s.mensaje, "conexión")
    ensures Validar(f, parseFloat).Ok? && !conexionOk ==> s.Fallido? && s.recarga
    ensures Validar(f, parseFloat).Ok? && conexionOk && (parseFloat(f.precio).NaN? || f.fecha == "") ==>
      s == Fallido(S.PrefijoGasto + S.FaltanCampos, false)
    ensures Validar(f, parseFloat).Ok? && conexionOk && parseFloat(f.precio).Num? && f.fecha != "" ==>
      (insercion.Fila? ==> s == Registrado(insercion.fila))
      && (insercion.SinDatos? ==> s == Fallido(S.PrefijoGasto + S.SinRespuestaGasto, false))
      && (insercion.Fallo? ==> s.Fallido? && s.mensaje == S.PrefijoGasto + S.DetalleGasto(insercion.error))
  {
    match Validar(f, parseFloat)
    case Err(motivo) => Rechazado(motivo)
    case Ok(g) =>
      ServicioRechazaValidado(f, parseFloat);
      Respuesta(g, conexionOk, insercion)
  }

  /** A submission waiting on `createGasto`: the list as the handler's
      closure captured it when the submission began, and the record sent. */
  datatype Pendiente = Pendiente(instantanea: seq<Rec<S.Gasto>>, gasto: S.Gasto)

  /** The screen's state slots (`gastos`, `nuevoGasto`). */
  class Component {
    var gastos: seq<Rec<S.Gasto>>
    var nuevoGasto: Form

    ghost predicate Valid()
      reads this
    {
      Coherente(nuevoGasto)
    }

    constructor (hoy: string)
      ensures Valid()
      ensures gastos == [] && nuevoGasto == Inicial(hoy)
    {
      gastos := [];
      nuevoGasto := Inicial(hoy);
    }

    /** The part of `handleSubmit` before its `await`: the guards and, when
        they pass, the pending call with the list as it stands now. Nothing
        changes yet. */
    method Enviar(parseFloat: Parser) returns (r: Result<S.Gasto, Rechazo>, p: Option<Pendiente>)
      ensures r == Validar(nuevoGasto, parseFloat)
      ensures p.Some? <==> r.Ok?
      ensures p.Some? ==> p.value == Pendiente(gastos, r.value)
    {
      r := Validar(nuevoGasto, parseFloat);
      p := if r.Ok? then Some(Pendiente(gastos, r.value)) else None;
    }

    /** The part after the `await`: a registered expense goes in front of the
        captured list, not of the current one, and the draft is reset; a
        failure leaves list and draft as they are (the reload it may ask for
        is the `recarga` flag). */
    method Resolver(p: Pendiente, hoy: string, conexionOk: bool, insercion: S.Insercion<Rec<S.Gasto>>)
      returns (s: Salida)
      requires Valid()
      modifies this
      ensures Valid()
      ensures s == Respuesta(p.gasto, conexionOk, insercion)
      ensures s.Registrado? ==> gastos == [s.gasto] + p.instantanea && nuevoGasto == Inicial(hoy)
      ensures !s.Registrado? ==> gastos == old(gastos) && nuevoGasto == old(nuevoGasto)
    {
      s := Respuesta(p.gasto, conexionOk, insercion);
      if s.Registrado? {
        gastos := [s.gasto] + p.instantanea;
        nuevoGasto := Inicial(hoy);
      }
    }

    /** `handleSubmit` with no other submission in flight: a registered
        expense goes to the front of the list and the draft is reset; a
        refusal or a failure leaves both as they were. */
    method HandleSubmit(parseFloat: Parser, hoy: string, conexionOk: bool, insercion: S.Insercion<Rec<S.Gasto>>)
      returns (s: Salida)
      requires Valid()
      modifies this
      ensures Valid()
      ensures s == Resultado(old(nuevoGasto), parseFloat, conexionOk, insercion)
      ensures s.Registrado? ==> gastos == [s.gasto] + old(gastos) && nuevoGasto == Inicial(hoy)
      ensures !s.Registrado? ==> gastos == old(gastos) && nuevoGasto == old(nuevoGasto)
    {
      var r, p := Enviar(parseFloat);
      if p.Some? {
        ServicioRechazaValidado(nuevoGasto, parseFloat);
        s := Resolver(p.value, hoy, conexionOk, insercion);
      } else {
        s := Rechazado(r.error);
      }
    }

    /** The payment-type selector: sets the type and clears both references. */
    method CambiarTipoPago(t: S.TipoPago)
      requires Valid()
      modifies this
      ensures Valid()
      ensures gastos == old(gastos)
      ensures nuevoGasto == old(nuevoGasto).(tipo_pago := t, banco_id := "", tarjeta_id := "")
    {
      nuevoGasto := nuevoGasto.(tipo_pago := t, banco_id := "", tarjeta_id := "");
    }

    /** The card picker, shown only under card payment. */
    method ElegirTarjeta(id: Id)
      requires Valid() && nuevoGasto.tipo_pago == S.Tarjeta
      modifies this
      ensures Valid()
      ensures gastos == old(gastos) && nuevoGasto == old(nuevoGasto).(tarjeta_id := id)
    {
      nuevoGasto := nuevoGasto.(tarjeta_id := id);
    }

    /** The bank picker, shown only under transfer. */
    method ElegirBanco(id: Id)
      requires Valid() && nuevoGasto.tipo_pago == S.Transferencia
      modifies this
      ensures Valid()
      ensures gastos == old(gastos) && nuevoGasto == old(nuevoGasto).(banco_id := id)
    {
      nuevoGasto := nuevoGasto.(banco_id := id);
    }
  }

  /** Two submissions of the same draft that overlap (a second click before
      the first `createGasto` resolved): both rows are inserted, but the
      second continuation rebuilds the list from the same capture, so only
      the second row is shown. */
  method EnvioDoble(c: Component, parseFloat: Parser, hoy: string, x1: Rec<S.Gasto>, x2: Rec<S.Gasto>)
    returns (s1: Salida, s2: Salida)
    requires c.Valid() && Validar(c.nuevoGasto, parseFloat).Ok?
    requires S.CamposGasto(Validar(c.nuevoGasto, parseFloat).value)
    modifies c
    ensures s1 == Registrado(x1) && s2 == Registrado(x2)
    ensures c.gastos == [x2] + old(c.gastos)
    ensures x1 != x2 && x1 !in old(c.gastos) ==> x1 !in c.gastos
  {
    var r1, p1 := c.Enviar(parseFloat);
    var r2, p2 := c.Enviar(parseFloat);
    s1 := c.Resolver(p1.value, hoy, true, S.Fila(x1));
    s2 := c.Resolver(p2.value, hoy, true, S.Fila(x2));
  }
}
