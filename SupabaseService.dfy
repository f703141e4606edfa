/** The data-access adapter (src/services/supabaseService.ts): what each
    `create*` call checks before inserting, the row it sends (with its `||`
    defaults), and how it turns the backend's answer into a value or an
    error message. The backend itself is a parameter: an `Insercion` says
    what `insert(...).select().single()` resolved to, and `conexionOk` what
    the connection probe answered. */
module SupabaseService {
  import opened Js
  import opened Lists

  datatype TipoPago = Efectivo | Tarjeta | Transferencia
  datatype TipoAhorro = Diario | Semanal | Mensual | Anual
  datatype TipoInversion = Acciones | Bonos | Fondos | Criptomonedas | BienesRaices | Otros

  /** A database error as the client library reports it. */
  datatype PgError = PgError(message: string, code: string, details: Option<string>, hint: Option<string>)

  /** What an insert resolved to: the stored row, no row and no error, or an error. */
  datatype Insercion<R> = Fila(fila: R) | SinDatos | Fallo(error: PgError)

  /** A service call: the row handed to the insert (`None` when the call gave
      up before inserting) and what the call returned or threw. */
  datatype Envio<P, R, E> = Envio(enviado: Option<P>, salida: Result<R, E>)

  const Desconocido: string := "Error desconocido"

  /** `` `${prefijo}${m || 'Error desconocido'}` ``: the message a `catch` rethrows. */
  function Envolver(prefijo: string, m: string): (r: string)
    ensures |prefijo| < |r| && r[..|prefijo|] == prefijo
    ensures m != "" ==> r[|prefijo|..] == m
    ensures m == "" ==> r[|prefijo|..] == Desconocido
  {
    prefijo + (if m == "" then Desconocido else m)
  }

  /** The functions that throw the backend's error unchanged and return
      whatever row came back, `null` included. */
  function SinEnvolver<R>(i: Insercion<R>): (r: Result<Option<R>, PgError>)
    ensures r.Err? <==> i.Fallo?
    ensures r.Err? ==> r.error == i.error
    ensures i.Fila? ==> r == Ok(Some(i.fila))
    ensures i.SinDatos? ==> r == Ok(None)
  {
    match i
    case Fila(x) => Ok(Some(x))
    case SinDatos => Ok(None)
    case Fallo(e) => Err(e)
  }

  // ---------------------------------------------------------------- bancos

  /** The argument of `createBanco`. */
  datatype BancoNuevo = BancoNuevo(nombre: string, ultimos_digitos: Option<string>)

  /** The row `createBanco` inserts. */
  datatype BancoFila = BancoFila(nombre: string, ultimos_digitos: string)

  /** Only the name and the last digits (defaulting to '') are sent. */
  function FilaBanco(b: BancoNuevo): (p: BancoFila)
    ensures p.nombre == b.nombre
    ensures b.ultimos_digitos == Some(p.ultimos_digitos) || (b.ultimos_digitos.None? && p.ultimos_digitos == "")
  {
    BancoFila(b.nombre, b.ultimos_digitos.GetOr(""))
  }

  /** `createBanco`: no check, one insert, the error rethrown as is. */
  function CreateBanco(b: BancoNuevo, insercion: Insercion<Rec<BancoFila>>): (r: Envio<BancoFila, Option<Rec<BancoFila>>, PgError>)
    ensures r.enviado == Some(FilaBanco(b))
    ensures r.salida == SinEnvolver(insercion)
  {
    Envio(Some(FilaBanco(b)), SinEnvolver(insercion))
  }

  // -------------------------------------------------------------- tarjetas

  /** The argument of `createTarjeta` (`Omit<TarjetaCredito, 'id'>`). */
  datatype TarjetaNueva = TarjetaNueva(nombre: string, banco: string, limite: Num, fecha_cierre: Num,
                                       fecha_pago: Num, saldo: Option<Num>, ultimos_digitos: Option<string>)

  /** The row `createTarjeta` inserts. */
  datatype TarjetaFila = TarjetaFila(nombre: string, banco_id: string, limite: Num, fecha_cierre: Num,
                                     fecha_pago: Num, saldo: real, ultimos_digitos: string)

  const PrefijoTarjeta: string := "Error al crear tarjeta: "
  const FechasRequeridas: string := "Las fechas de cierre y pago son requeridas"
  const SinRespuestaTarjeta: string := "No se recibió respuesta al crear la tarjeta"

  /** The bank id is taken from `banco`; a missing, zero or NaN balance is
      sent as 0 and missing last digits as ''. */
  function FilaTarjeta(t: TarjetaNueva): (p: TarjetaFila)
    ensures p.nombre == t.nombre && p.banco_id == t.banco && p.limite == t.limite
    ensures p.fecha_cierre == t.fecha_cierre && p.fecha_pago == t.fecha_pago
    ensures t.saldo.Some? && Truthy(t.saldo.value) ==> t.saldo == Some(Num(p.saldo)) && p.saldo != 0.0
    ensures !(t.saldo.Some? && Truthy(t.saldo.value)) ==> p.saldo == 0.0
    ensures t.ultimos_digitos == Some(p.ultimos_digitos) || (t.ultimos_digitos.None? && p.ultimos_digitos == "")
  {
    TarjetaFila(t.nombre, t.banco, t.limite, t.fecha_cierre, t.fecha_pago,
                NumOrNull(t.saldo).GetOr(0.0), t.ultimos_digitos.GetOr(""))
  }

  /** `createTarjeta`: both day numbers must be truthy (so 0 and NaN are
      refused) before anything is inserted; every failure, the backend's
      included, is rethrown under the "Error al crear tarjeta: " prefix. */
  function CreateTarjeta(t: TarjetaNueva, insercion: Insercion<Rec<TarjetaFila>>): (r: Envio<TarjetaFila, Rec<TarjetaFila>, string>)
    ensures r.enviado.None? <==> !Truthy(t.fecha_cierre) || !Truthy(t.fecha_pago)
    ensures r.enviado.Some? ==> r.enviado.value == FilaTarjeta(t)
    ensures r.enviado.None? ==> r.salida == Err(PrefijoTarjeta + FechasRequeridas)
    ensures r.salida.Ok? <==> r.enviado.Some? && insercion.Fila?
    ensures r.salida.Ok? ==> insercion == Fila(r.salida.value)
    ensures r.enviado.Some? && insercion.SinDatos? ==> r.salida == Err(PrefijoTarjeta + SinRespuestaTarjeta)
    ensures r.enviado.Some? && insercion.Fallo? ==>
      r.salida == Err(PrefijoTarjeta + (if insercion.error.message == "" then Desconocido else insercion.error.message))
    ensures r.salida.Err? ==> |PrefijoTarjeta| < |r.salida.error| && r.salida.error[..|PrefijoTarjeta|] == PrefijoTarjeta
  {
    if !Truthy(t.fecha_cierre) || !Truthy(t.fecha_pago) then
      Envio(None, Err(Envolver(PrefijoTarjeta, FechasRequeridas)))
    else
      Envio(Some(FilaTarjeta(t)),
            match insercion
            case Fila(x) => Ok(x)
            case SinDatos => Err(Envolver(PrefijoTarjeta, SinRespuestaTarjeta))
            case Fallo(e) => Err(Envolver(PrefijoTarjeta, e.message)))
  }

  // ---------------------------------------------------------------- gastos

  /** The argument of `createGasto`, and (with its ids nulled) the row it inserts. */
  datatype Gasto = Gasto(descripcion: string, precio: Num, categoria: string, fecha: string,
                         tipo_pago: TipoPago, banco_id: Option<string>, tarjeta_id: Option<string>)

  const PrefijoGasto: string := "Error al crear gasto: "
  const SinConexion: string := "No se pudo establecer " + "conexión" + " con la base de datos"
  const FaltanCampos: string := "Faltan campos requeridos en el gasto"
  const SinRespuestaGasto: string := "No se recibió respuesta al crear el gasto"

  /** The pre-insert check: all four required fields truthy (a zero or NaN price fails). */
  predicate CamposGasto(g: Gasto) {
    g.descripcion != "" && Truthy(g.precio) && g.categoria != "" && g.fecha != ""
  }

  /** The row sent: the fields as given, absent or empty ids as null. */
  function FilaGasto(g: Gasto): (p: Gasto)
    ensures p.(banco_id := g.banco_id, tarjeta_id := g.tarjeta_id) == g
    ensures p.banco_id.None? <==> g.banco_id.None? || g.banco_id.value == ""
    ensures p.tarjeta_id.None? <==> g.tarjeta_id.None? || g.tarjeta_id.value == ""
    ensures p.banco_id.Some? ==> p.banco_id == g.banco_id
    ensures p.tarjeta_id.Some? ==> p.tarjeta_id == g.tarjeta_id
  {
    g.(banco_id := StringOrNull(g.banco_id), tarjeta_id := StringOrNull(g.tarjeta_id))
  }

  /** The message the insert error is turned into inside the `try`. */
  function DetalleGasto(e: PgError): string {
    PrefijoGasto + e.message + " (" + e.code + ") - " + e.details.GetOr("") + " " + e.hint.GetOr("")
  }

  /** `createGasto`: probe first, then the field check, then the insert; each
      failure throws, and the outer `catch` prefixes the message once more. */
  function CreateGasto(g: Gasto, conexionOk: bool, insercion: Insercion<Rec<Gasto>>): (r: Envio<Gasto, Rec<Gasto>, string>)
    ensures r.enviado.Some? <==> conexionOk && CamposGasto(g)
    ensures r.enviado.Some? ==> r.enviado.value == FilaGasto(g)
    ensures !conexionOk ==> r.salida == Err(PrefijoGasto + SinConexion)
    ensures conexionOk && !CamposGasto(g) ==> r.salida == Err(PrefijoGasto + FaltanCampos)
    ensures r.salida.Ok? <==> r.enviado.Some? && insercion.Fila?
    ensures r.salida.Ok? ==> insercion == Fila(r.salida.value)
    ensures r.enviado.Some? && insercion.SinDatos? ==> r.salida == Err(PrefijoGasto + SinRespuestaGasto)
    ensures r.enviado.Some? && insercion.Fallo? ==> r.salida == Err(PrefijoGasto + DetalleGasto(insercion.error))
  {
    if !conexionOk then Envio(None, Err(Envolver(PrefijoGasto, SinConexion)))
    else if !CamposGasto(g) then Envio(None, Err(Envolver(PrefijoGasto, FaltanCampos)))
    else
      Envio(Some(FilaGasto(g)),
            match insercion
            case Fila(x) => Ok(x)
            case SinDatos => Err(Envolver(PrefijoGasto, SinRespuestaGasto))
            case Fallo(e) => Err(Envolver(PrefijoGasto, DetalleGasto(e))))
  }

  /** A backend error reaches the caller carrying its message, code, details
      and hint, behind the prefix written twice. */
  lemma MensajeFalloGasto(e: PgError)
    ensures var m := PrefijoGasto + DetalleGasto(e);
      m[..2 * |PrefijoGasto|] == PrefijoGasto + PrefijoGasto
      && Contains(m, e.message) && Contains(m, "(" + e.code + ")")
      && Contains(m, e.details.GetOr("")) && Contains(m, e.hint.GetOr(""))
  {
    Piezas(PrefijoGasto, e.message, e.code, e.details.GetOr(""), e.hint.GetOr(""));
  }

  /** The pieces of `p + (p + msg + " (" + code + ") - " + d + " " + h)`. */
  lemma Piezas(p: string, msg: string, code: string, d: string, h: string)
    ensures var m := p + (p + msg + " (" + code + ") - " + d + " " + h);
      m[..2 * |p|] == p + p
      && Contains(m, msg) && Contains(m, "(" + code + ")") && Contains(m, d) && Contains(m, h)
  {
    var m := p + (p + msg + " (" + code + ") - " + d + " " + h);
    var c := "(" + code + ")";
    assert m == (p + p) + msg + (" " + c + " - " + d + " " + h);
    ContainsPiece(p + p, msg, " " + c + " - " + d + " " + h);
    assert m == (p + p + msg + " ") + c + (" - " + d + " " + h);
    ContainsPiece(p + p + msg + " ", c, " - " + d + " " + h);
    assert m == (p + p + msg + " " + c + " - ") + d + (" " + h);
    ContainsPiece(p + p + msg + " " + c + " - ", d, " " + h);
    assert m == (p + p + msg + " " + c + " - " + d + " ") + h + "";
    ContainsPiece(p + p + msg + " " + c + " - " + d + " ", h, "");
  }

  /** Of the messages `createGasto` writes itself, only the probe failure
      mentions "conexión". */
  lemma SinConexionMencionaConexion()
    ensures Contains(PrefijoGasto + SinConexion, "conexión")
  {
    var p, a, c := PrefijoGasto, "No se pudo establecer ", " con la base de datos";
    Reagrupar(p, a, "conexión", c);
    ContainsPiece(p + a, "conexión", c);
  }

  lemma Reagrupar(p: string, a: string, b: string, c: string)
    ensures p + (a + b + c) == (p + a) + b + c
  {
  }

  lemma FaltanCamposNoMencionaConexion()
    ensures !Contains(PrefijoGasto + FaltanCampos, "conexión")
  {
    ContainsNeedsChar(PrefijoGasto + FaltanCampos, "conexión", 'x');
  }

  lemma SinRespuestaNoMencionaConexion()
    ensures !Contains(PrefijoGasto + SinRespuestaGasto, "conexión")
  {
    ContainsNeedsChar(PrefijoGasto + SinRespuestaGasto, "conexión", 'x');
  }

  // ----------------------------------------------------- the other entities

  /** The argument of `createAhorro`. */
  datatype Ahorro = Ahorro(descripcion: string, precio: Num, tipo_ahorro: TipoAhorro, fecha: string,
                           meta: Option<Num>, banco_id: Option<string>)

  /** The row `createAhorro` inserts (`null` fields as `None`). */
  datatype AhorroFila = AhorroFila(descripcion: string, precio: Num, tipo_ahorro: TipoAhorro, fecha: string,
                                   meta: Option<real>, banco_id: Option<string>)

  /** A zero, NaN or absent goal and an empty or absent bank go in as null. */
  function FilaAhorro(a: Ahorro): (p: AhorroFila)
    ensures p.descripcion == a.descripcion && p.precio == a.precio && p.tipo_ahorro == a.tipo_ahorro && p.fecha == a.fecha
    ensures p.meta.None? <==> a.meta.None? || !Truthy(a.meta.value)
    ensures p.meta.Some? ==> a.meta == Some(Num(p.meta.value))
    ensures p.banco_id.None? <==> a.banco_id.None? || a.banco_id.value == ""
    ensures p.banco_id.Some? ==> p.banco_id == a.banco_id
  {
    AhorroFila(a.descripcion, a.precio, a.tipo_ahorro, a.fecha, NumOrNull(a.meta), StringOrNull(a.banco_id))
  }

  /** `createAhorro`: no check, one insert, the error rethrown as is. */
  function CreateAhorro(a: Ahorro, insercion: Insercion<Rec<AhorroFila>>): (r: Envio<AhorroFila, Option<Rec<AhorroFila>>, PgError>)
    ensures r.enviado == Some(FilaAhorro(a))
    ensures r.salida == SinEnvolver(insercion)
  {
    Envio(Some(FilaAhorro(a)), SinEnvolver(insercion))
  }

  /** The argument of `createInversion`. */
  datatype Inversion = Inversion(descripcion: string, precio: Num, tipo: TipoInversion, fecha: string,
                                 retorno_esperado: Option<Num>, tipo_pago: TipoPago, banco_id: Option<string>)

  /** The row `createInversion` inserts. */
  datatype InversionFila = InversionFila(descripcion: string, precio: Num, tipo: TipoInversion, fecha: string,
                                         retorno_esperado: Option<real>, tipo_pago: TipoPago, banco_id: Option<string>)

  /** A zero, NaN or absent expected return and an empty or absent bank go in as null. */
  function FilaInversion(i: Inversion): (p: InversionFila)
    ensures p.descripcion == i.descripcion && p.precio == i.precio && p.tipo == i.tipo
    ensures p.fecha == i.fecha && p.tipo_pago == i.tipo_pago
    ensures p.retorno_esperado.None? <==> i.retorno_esperado.None? || !Truthy(i.retorno_esperado.value)
    ensures p.retorno_esperado.Some? ==> i.retorno_esperado == Some(Num(p.retorno_esperado.value))
    ensures p.banco_id.None? <==> i.banco_id.None? || i.banco_id.value == ""
    ensures p.banco_id.Some? ==> p.banco_id == i.banco_id
  {
    InversionFila(i.descripcion, i.precio, i.tipo, i.fecha, NumOrNull(i.retorno_esperado), i.tipo_pago,
                  StringOrNull(i.banco_id))
  }

  /** `createInversion`: no check, one insert, the error rethrown as is. */
  function CreateInversion(i: Inversion, insercion: Insercion<Rec<InversionFila>>): (r: Envio<InversionFila, Option<Rec<InversionFila>>, PgError>)
    ensures r.enviado == Some(FilaInversion(i))
    ensures r.salida == SinEnvolver(insercion)
  {
    Envio(Some(FilaInversion(i)), SinEnvolver(insercion))
  }

  /** The argument of `createDeuda`. */
  datatype Deuda = Deuda(descripcion: string, precio: Num, fecha_vencimiento: string, interes: Option<Num>)

  /** The row `createDeuda` inserts. */
  datatype DeudaFila = DeudaFila(descripcion: string, precio: Num, fecha_vencimiento: string, interes: Option<real>)

  /** A zero, NaN or absent interest goes in as null. */
  function FilaDeuda(d: Deuda): (p: DeudaFila)
    ensures p.descripcion == d.descripcion && p.precio == d.precio && p.fecha_vencimiento == d.fecha_vencimiento
    ensures p.interes.None? <==> d.interes.None? || !Truthy(d.interes.value)
    ensures p.interes.Some? ==> d.interes == Some(Num(p.interes.value))
  {
    DeudaFila(d.descripcion, d.precio, d.fecha_vencimiento, NumOrNull(d.interes))
  }

  /** `createDeuda`: no check, one insert, the error rethrown as is. */
  function CreateDeuda(d: Deuda, insercion: Insercion<Rec<DeudaFila>>): (r: Envio<DeudaFila, Option<Rec<DeudaFila>>, PgError>)
    ensures r.enviado == Some(FilaDeuda(d))
    ensures r.salida == SinEnvolver(insercion)
  {
    Envio(Some(FilaDeuda(d)), SinEnvolver(insercion))
  }

  /** The argument of `createObjetivoMensual`. */
  datatype ObjetivoMensual = ObjetivoMensual(descripcion: string, precio: Num, mes: int, anio: int,
                                             completado: bool, progreso: Option<Num>)

  /** The row `createObjetivoMensual` inserts. */
  datatype ObjetivoFila = ObjetivoFila(descripcion: string, precio: Num, mes: int, anio: int,
                                       completado: bool, progreso: Option<real>)

  /** A zero, NaN or absent progress goes in as null; the flag is sent as given. */
  function FilaObjetivo(o: ObjetivoMensual): (p: ObjetivoFila)
    ensures p.descripcion == o.descripcion && p.precio == o.precio && p.mes == o.mes && p.anio == o.anio
    ensures p.completado == o.completado
    ensures p.progreso.None? <==> o.progreso.None? || !Truthy(o.progreso.value)
    ensures p.progreso.Some? ==> o.progreso == Some(Num(p.progreso.value))
  {
    ObjetivoFila(o.descripcion, o.precio, o.mes, o.anio, o.completado, NumOrNull(o.progreso))
  }

  /** `createObjetivoMensual`: no check, one insert, the error rethrown as is. */
  function CreateObjetivoMensual(o: ObjetivoMensual, insercion: Insercion<Rec<ObjetivoFila>>): (r: Envio<ObjetivoFila, Option<Rec<ObjetivoFila>>, PgError>)
    ensures r.enviado == Some(FilaObjetivo(o))
    ensures r.salida == SinEnvolver(insercion)
  {
    Envio(Some(FilaObjetivo(o)), SinEnvolver(insercion))
  }

  /** The change `updateProgresoObjetivo` writes to the goal with that id. */
  datatype CambioProgreso = CambioProgreso(id: Id, progreso: Num, completado: bool)

  // --------------------------------------------- how the calls answer

  /** A call that always inserts and hands back the backend's answer as it
      came: its error unchanged, its row, or `null`. */
  predicate PasaLaRespuesta<P, R(==)>(r: Envio<P, Option<R>, PgError>, i: Insercion<R>) {
    && r.enviado.Some?
    && (i.Fallo? ==> r.salida == Err(i.error))
    && (i.SinDatos? ==> r.salida == Ok(None))
    && (i.Fila? ==> r.salida == Ok(Some(i.fila)))
  }

  /** `createBanco`, `createAhorro`, `createInversion`, `createDeuda` and
      `createObjetivoMensual` check nothing, always insert, rethrow the
      backend's error unchanged and return a `null` row as it is. */
  lemma LlamadasSinComprobacion(b: BancoNuevo, ib: Insercion<Rec<BancoFila>>,
                                a: Ahorro, ia: Insercion<Rec<AhorroFila>>,
                                v: Inversion, iv: Insercion<Rec<InversionFila>>,
                                d: Deuda, id: Insercion<Rec<DeudaFila>>,
                                o: ObjetivoMensual, io: Insercion<Rec<ObjetivoFila>>)
    ensures PasaLaRespuesta(CreateBanco(b, ib), ib)
    ensures PasaLaRespuesta(CreateAhorro(a, ia), ia)
    ensures PasaLaRespuesta(CreateInversion(v, iv), iv)
    ensures PasaLaRespuesta(CreateDeuda(d, id), id)
    ensures PasaLaRespuesta(CreateObjetivoMensual(o, io), io)
  {
  }

  /** `createTarjeta` and `createGasto`, by contrast, may give up before
      inserting, turn a `null` row into an error, and throw only texts that
      start with their own prefix, the backend's error included. */
  lemma LlamadasConPrefijo(t: TarjetaNueva, it: Insercion<Rec<TarjetaFila>>,
                           g: Gasto, conexionOk: bool, ig: Insercion<Rec<Gasto>>)
    ensures it.SinDatos? ==> CreateTarjeta(t, it).salida.Err?
    ensures ig.SinDatos? ==> CreateGasto(g, conexionOk, ig).salida.Err?
    ensures CreateTarjeta(t, it).salida.Err? ==>
      |PrefijoTarjeta| < |CreateTarjeta(t, it).salida.error|
      && CreateTarjeta(t, it).salida.error[..|PrefijoTarjeta|] == PrefijoTarjeta
    ensures CreateGasto(g, conexionOk, ig).salida.Err? ==>
      |PrefijoGasto| < |CreateGasto(g, conexionOk, ig).salida.error|
      && CreateGasto(g, conexionOk, ig).salida.error[..|PrefijoGasto|] == PrefijoGasto
  {
    var r := CreateGasto(g, conexionOk, ig).salida;
    if r.Err? {
      if !conexionOk {
        assert r.error == Envolver(PrefijoGasto, SinConexion);
      } else if !CamposGasto(g) {
        assert r.error == Envolver(PrefijoGasto, FaltanCampos);
      } else if ig.SinDatos? {
        assert r.error == Envolver(PrefijoGasto, SinRespuestaGasto);
      } else {
        assert r.error == Envolver(PrefijoGasto, DetalleGasto(ig.error));
      }
    }
  }

  /** `updateProgresoObjetivo`: the goal counts as completed once its progress
      reaches 100, whatever its target; a NaN progress never completes it. */
  function UpdateProgresoObjetivo(id: Id, progreso: Num, resultado: Insercion<Rec<ObjetivoFila>>): (r: Envio<CambioProgreso, Option<Rec<ObjetivoFila>>, PgError>)
    ensures r.enviado.Some? && r.enviado.value.id == id && r.enviado.value.progreso == progreso
    ensures r.enviado.value.completado <==> progreso.Num? && progreso.value >= 100.0
    ensures r.salida == SinEnvolver(resultado)
  {
    Envio(Some(CambioProgreso(id, progreso, AtLeast(progreso, 100.0))), SinEnvolver(resultado))
  }
}
