/** The remote-backed banks-and-cards screen (src/components/GestionFinanciera.tsx):
    the guard chains of the two forms, the values built for the service,
    and the list changes made once the service has answered. Each handler
    is split at its `await`: the continuation rebuilds the list from the copy
    its closure captured, not from the current one. `createBanco`'s answer is
    the backend's `Insercion`; the answers of `createTarjeta` (the card, or
    `None` when it threw) and `deleteTarjeta` are parameters. */
module GestionFinanciera {
  import opened Js
  import opened Lists
  import S = SupabaseService

  /** The draft `nuevoBanco`. */
  datatype FormBanco = FormBanco(nombre: string, saldo: string)

  /** The draft `nuevaTarjeta`; the two days are kept as typed. */
  datatype FormTarjeta = FormTarjeta(nombre: string, banco_id: string, limite: string, saldo: string,
                                     fecha_cierre: string, fecha_pago: string)

  /** The object handed to `createBanco`. */
  datatype Banco = Banco(nombre: string, saldo: Num)

  /** The object handed to `createTarjeta`. */
  datatype Tarjeta = Tarjeta(nombre: string, banco_id: string, limite: Num, saldo: real,
                             fecha_cierre: string, fecha_pago: string)

  datatype RechazoBanco = NombreBancoRequerido | SaldoInvalido
  datatype RechazoTarjeta = NombreTarjetaRequerido | FaltaBanco | LimiteInvalido | FaltanFechas

  const BancoVacio: FormBanco := FormBanco("", "")
  const TarjetaVacia: FormTarjeta := FormTarjeta("", "", "", "", "", "")

  /** `!saldo || parseFloat(saldo) < 0`: 0 and NaN both get through. */
  predicate SaldoRechazado(saldo: string, parseFloat: Parser) {
    saldo == "" || Below(parseFloat(saldo), 0.0)
  }

  /** `!limite || parseFloat(limite) <= 0`: NaN gets through. */
  predicate LimiteRechazado(limite: string, parseFloat: Parser) {
    limite == "" || AtMost(parseFloat(limite), 0.0)
  }

  /** `handleSubmitBanco`'s guards and the object it sends; the name is sent untrimmed. */
  function ValidarBanco(f: FormBanco, parseFloat: Parser): (r: Result<Banco, RechazoBanco>)
    ensures r == Err(NombreBancoRequerido) <==> IsBlank(f.nombre)
    ensures r == Err(SaldoInvalido) <==> !IsBlank(f.nombre) && SaldoRechazado(f.saldo, parseFloat)
    ensures r.Ok? ==> r.value == Banco(f.nombre, parseFloat(f.saldo))
    ensures r.Ok? ==> !IsBlank(r.value.nombre) && !Below(r.value.saldo, 0.0)
  {
    TrimEmptyIffBlank(f.nombre);
    if Trim(f.nombre) == "" then Err(NombreBancoRequerido)
    else if SaldoRechazado(f.saldo, parseFloat) then Err(SaldoInvalido)
    else Ok(Banco(f.nombre, parseFloat(f.saldo)))
  }

  /** A zero balance is accepted. */
  lemma SaldoCeroAceptado(f: FormBanco, parseFloat: Parser)
    requires !IsBlank(f.nombre) && f.saldo != "" && parseFloat(f.saldo) == Num(0.0)
    ensures ValidarBanco(f, parseFloat) == Ok(Banco(f.nombre, Num(0.0)))
  {
  }

  /** Every bank object the guards let through comes from some draft: its
      own name next to balance text that parses back to its balance. */
  lemma ValidarBancoAlcanzaTodo(b: Banco, saldo: string, parseFloat: Parser)
    requires !IsBlank(b.nombre) && !Below(b.saldo, 0.0)
    requires saldo != "" && parseFloat(saldo) == b.saldo
    ensures ValidarBanco(FormBanco(b.nombre, saldo), parseFloat) == Ok(b)
  {
  }

  /** `handleSubmitTarjeta`'s guards, in order, and the object it sends. */
  function ValidarTarjeta(f: FormTarjeta, parseFloat: Parser): (r: Result<Tarjeta, RechazoTarjeta>)
    ensures r == Err(NombreTarjetaRequerido) <==> IsBlank(f.nombre)
    ensures r == Err(FaltaBanco) <==> !IsBlank(f.nombre) && f.banco_id == ""
    ensures r == Err(LimiteInvalido) <==>
      !IsBlank(f.nombre) && f.banco_id != "" && LimiteRechazado(f.limite, parseFloat)
    ensures r == Err(FaltanFechas) <==>
      !IsBlank(f.nombre) && f.banco_id != "" && !LimiteRechazado(f.limite, parseFloat)
      && (f.fecha_cierre == "" || f.fecha_pago == "")
    ensures r.Ok? ==> (r.value.nombre == f.nombre && r.value.banco_id == f.banco_id
                       && r.value.limite == parseFloat(f.limite)
                       && r.value.fecha_cierre == f.fecha_cierre && r.value.fecha_pago == f.fecha_pago)
    ensures r.Ok? ==> (Truthy(parseFloat(f.saldo)) ==> parseFloat(f.saldo) == Num(r.value.saldo))
                      && (!Truthy(parseFloat(f.saldo)) ==> r.value.saldo == 0.0)
    ensures r.Ok? ==> !IsBlank(r.value.nombre) && r.value.banco_id != "" && !AtMost(r.value.limite, 0.0)
                      && r.value.fecha_cierre != "" && r.value.fecha_pago != ""
  {
    TrimEmptyIffBlank(f.nombre);
    if Trim(f.nombre) == "" then Err(NombreTarjetaRequerido)
    else if f.banco_id == "" then Err(FaltaBanco)
    else if LimiteRechazado(f.limite, parseFloat) then Err(LimiteInvalido)
    else if f.fecha_cierre == "" || f.fecha_pago == "" then Err(FaltanFechas)
    else Ok(Tarjeta(f.nombre, f.banco_id, parseFloat(f.limite), NumOr(parseFloat(f.saldo), 0.0),
                    f.fecha_cierre, f.fecha_pago))
  }

  /** The balance field never decides acceptance: two drafts that differ only
      there are accepted or refused alike. */
  lemma SaldoNoDecideTarjeta(f: FormTarjeta, saldo: string, parseFloat: Parser)
    ensures ValidarTarjeta(f.(saldo := saldo), parseFloat).Err? == ValidarTarjeta(f, parseFloat).Err?
    ensures ValidarTarjeta(f, parseFloat).Err? ==>
      ValidarTarjeta(f.(saldo := saldo), parseFloat) == ValidarTarjeta(f, parseFloat)
  {
    TrimEmptyIffBlank(f.nombre);
  }

  /** Every card object the guards let through comes from some draft. */
  lemma ValidarTarjetaAlcanzaTodo(t: Tarjeta, limite: string, saldo: string, parseFloat: Parser)
    requires !IsBlank(t.nombre) && t.banco_id != "" && !AtMost(t.limite, 0.0)
    requires t.fecha_cierre != "" && t.fecha_pago != ""
    requires limite != "" && parseFloat(limite) == t.limite && NumOr(parseFloat(saldo), 0.0) == t.saldo
    ensures ValidarTarjeta(FormTarjeta(t.nombre, t.banco_id, limite, saldo, t.fecha_cierre, t.fecha_pago), parseFloat) == Ok(t)
  {
    TrimEmptyIffBlank(t.nombre);
  }

  /** The argument `createBanco` receives: `{ nombre, saldo }` has no
      `ultimos_digitos`, and the balance is not a field the service reads. */
  function Argumento(b: Banco): S.BancoNuevo {
    S.BancoNuevo(b.nombre, None)
  }

  /** The row inserted for an accepted bank holds its name and empty last
      digits: the balance typed into the form never reaches the database. */
  lemma BancoEnviado(f: FormBanco, parseFloat: Parser, insercion: S.Insercion<Rec<S.BancoFila>>)
    requires ValidarBanco(f, parseFloat).Ok?
    ensures S.CreateBanco(Argumento(ValidarBanco(f, parseFloat).value), insercion).enviado
            == Some(S.BancoFila(f.nombre, ""))
  {
  }

  /** A bank submission waiting on `createBanco`: the list its closure
      captured and the argument sent. */
  datatype AltaBanco = AltaBanco(instantanea: seq<Option<Rec<S.BancoFila>>>, argumento: S.BancoNuevo)

  /** A card submission waiting on `createTarjeta`. */
  datatype AltaTarjeta = AltaTarjeta(instantanea: seq<Rec<S.TarjetaFila>>, tarjeta: Tarjeta)

  /** A delete waiting on `deleteTarjeta`. */
  datatype BajaTarjeta = BajaTarjeta(instantanea: seq<Rec<S.TarjetaFila>>, id: Id)

  /** The screen's state slots. A bank entry is `None` where `createBanco`
      resolved to `null` and that `null` was appended. */
  class Component {
    var bancos: seq<Option<Rec<S.BancoFila>>>
    var tarjetas: seq<Rec<S.TarjetaFila>>
    var nuevoBanco: FormBanco
    var nuevaTarjeta: FormTarjeta

    constructor ()
      ensures bancos == [] && tarjetas == [] && nuevoBanco == BancoVacio && nuevaTarjeta == TarjetaVacia
    {
      bancos, tarjetas := [], [];
      nuevoBanco, nuevaTarjeta := BancoVacio, TarjetaVacia;
    }

    /** `handleSubmitBanco` up to its `await`: the guards and, when they pass,
        the pending call with the list as it stands now. Nothing changes yet. */
    method EnviarBanco(parseFloat: Parser) returns (r: Result<Banco, RechazoBanco>, p: Option<AltaBanco>)
      ensures r == ValidarBanco(nuevoBanco, parseFloat)
      ensures p.Some? <==> r.Ok?
      ensures p.Some? ==> p.value == AltaBanco(bancos, Argumento(r.value))
    {
      r := ValidarBanco(nuevoBanco, parseFloat);
      p := if r.Ok? then Some(AltaBanco(bancos, Argumento(r.value))) else None;
    }

    /** The rest of `handleSubmitBanco`: whatever `createBanco` returned,
        `null` included, is appended to the captured list and the draft is
        cleared; when it threw nothing changes. */
    method ResolverBanco(p: AltaBanco, insercion: S.Insercion<Rec<S.BancoFila>>)
      returns (salida: Result<Option<Rec<S.BancoFila>>, S.PgError>)
      modifies this
      ensures salida == S.CreateBanco(p.argumento, insercion).salida
      ensures tarjetas == old(tarjetas) && nuevaTarjeta == old(nuevaTarjeta)
      ensures salida.Ok? ==> bancos == p.instantanea + [salida.value] && nuevoBanco == BancoVacio
      ensures salida.Err? ==> bancos == old(bancos) && nuevoBanco == old(nuevoBanco)
    {
      salida := S.CreateBanco(p.argumento, insercion).salida;
      if salida.Ok? {
        bancos := p.instantanea + [salida.value];
        nuevoBanco := BancoVacio;
      }
    }

    /** `handleSubmitBanco` with no other submission in flight: an accepted
        bank is sent as `Argumento`; the stored row is appended, a `null`
        answer is appended as a `null` entry, and a backend error changes
        nothing. */
    method HandleSubmitBanco(parseFloat: Parser, insercion: S.Insercion<Rec<S.BancoFila>>)
      returns (r: Result<Banco, RechazoBanco>)
      modifies this
      ensures r == ValidarBanco(old(nuevoBanco), parseFloat)
      ensures tarjetas == old(tarjetas) && nuevaTarjeta == old(nuevaTarjeta)
      ensures r.Ok? && insercion.Fila? ==> bancos == old(bancos) + [Some(insercion.fila)] && nuevoBanco == BancoVacio
      ensures r.Ok? && insercion.SinDatos? ==> bancos == old(bancos) + [None] && nuevoBanco == BancoVacio
      ensures r.Err? || insercion.Fallo? ==> bancos == old(bancos) && nuevoBanco == old(nuevoBanco)
    {
      var p;
      r, p := EnviarBanco(parseFloat);
      if p.Some? {
        var salida := ResolverBanco(p.value, insercion);
      }
    }

    /** `handleSubmitTarjeta` up to its `await`. Nothing changes yet. */
    method EnviarTarjeta(parseFloat: Parser) returns (r: Result<Tarjeta, RechazoTarjeta>, p: Option<AltaTarjeta>)
      ensures r == ValidarTarjeta(nuevaTarjeta, parseFloat)
      ensures p.Some? <==> r.Ok?
      ensures p.Some? ==> p.value == AltaTarjeta(tarjetas, r.value)
    {
      r := ValidarTarjeta(nuevaTarjeta, parseFloat);
      p := if r.Ok? then Some(AltaTarjeta(tarjetas, r.value)) else None;
    }

    /** The rest of `handleSubmitTarjeta`: the card `createTarjeta` returned
        (`None` when it threw; it never returns `null`) is appended to the
        captured list and the draft cleared. */
    method ResolverTarjeta(p: AltaTarjeta, creada: Option<Rec<S.TarjetaFila>>)
      modifies this
      ensures bancos == old(bancos) && nuevoBanco == old(nuevoBanco)
      ensures creada.Some? ==> tarjetas == p.instantanea + [creada.value] && nuevaTarjeta == TarjetaVacia
      ensures creada.None? ==> tarjetas == old(tarjetas) && nuevaTarjeta == old(nuevaTarjeta)
    {
      if creada.Some? {
        tarjetas := p.instantanea + [creada.value];
        nuevaTarjeta := TarjetaVacia;
      }
    }

    /** `handleSubmitTarjeta` with no other submission in flight. */
    method HandleSubmitTarjeta(parseFloat: Parser, creada: Option<Rec<S.TarjetaFila>>) returns (r: Result<Tarjeta, RechazoTarjeta>)
      modifies this
      ensures r == ValidarTarjeta(old(nuevaTarjeta), parseFloat)
      ensures bancos == old(bancos) && nuevoBanco == old(nuevoBanco)
      ensures r.Ok? && creada.Some? ==> tarjetas == old(tarjetas) + [creada.value] && nuevaTarjeta == TarjetaVacia
      ensures !(r.Ok? && creada.Some?) ==> tarjetas == old(tarjetas) && nuevaTarjeta == old(nuevaTarjeta)
    {
      var p;
      r, p := EnviarTarjeta(parseFloat);
      if p.Some? {
        ResolverTarjeta(p.value, creada);
      }
    }

    /** `handleDeleteTarjeta` up to its `await`: the list as it stands now. */
    method EnviarBajaTarjeta(id: Id) returns (p: BajaTarjeta)
      ensures p == BajaTarjeta(tarjetas, id)
    {
      p := BajaTarjeta(tarjetas, id);
    }

    /** The rest of `handleDeleteTarjeta`: once `deleteTarjeta` resolved
        (`borrada`), the list becomes the captured one without that id. */
    method ResolverBajaTarjeta(p: BajaTarjeta, borrada: bool)
      modifies this
      ensures bancos == old(bancos) && nuevoBanco == old(nuevoBanco) && nuevaTarjeta == old(nuevaTarjeta)
      ensures tarjetas == if borrada then RemoveById(p.instantanea, p.id) else old(tarjetas)
    {
      if borrada {
        tarjetas := RemoveById(p.instantanea, p.id);
      }
    }

    /** `handleDeleteTarjeta` with no other call in flight: the cards with the
        id leave the list only once the delete resolved. */
    method HandleDeleteTarjeta(id: Id, borrada: bool)
      modifies this
      ensures bancos == old(bancos) && nuevoBanco == old(nuevoBanco) && nuevaTarjeta == old(nuevaTarjeta)
      ensures tarjetas == if borrada then RemoveById(old(tarjetas), id) else old(tarjetas)
      ensures id !in Ids(tarjetas) || !borrada
      ensures Ids(tarjetas) <= old(Ids(tarjetas))
    {
      RemoveByIdKeepsDistinct(tarjetas, id);
      var p := EnviarBajaTarjeta(id);
      ResolverBajaTarjeta(p, borrada);
    }
  }

  /** Two bank submissions that overlap (a second click before the first
      `createBanco` resolved): both rows are inserted, but the second
      continuation rebuilds the list from the same capture, so the first row
      is not shown. */
  method AltaBancoDoble(c: Component, parseFloat: Parser, x1: Rec<S.BancoFila>, x2: Rec<S.BancoFila>)
    requires ValidarBanco(c.nuevoBanco, parseFloat).Ok?
    modifies c
    ensures c.bancos == old(c.bancos) + [Some(x2)]
    ensures x1 != x2 && Some(x1) !in old(c.bancos) ==> Some(x1) !in c.bancos
  {
    var r1, p1 := c.EnviarBanco(parseFloat);
    var r2, p2 := c.EnviarBanco(parseFloat);
    var s1 := c.ResolverBanco(p1.value, S.Fila(x1));
    var s2 := c.ResolverBanco(p2.value, S.Fila(x2));
  }

  /** Two deletes of different cards that overlap: the second continuation
      filters the list it captured before the first delete landed, so the
      first card, already deleted in the database, is shown again. */
  method BajasSolapadas(c: Component, id1: Id, id2: Id)
    requires id1 != id2 && id1 in Ids(c.tarjetas)
    modifies c
    ensures c.tarjetas == RemoveById(old(c.tarjetas), id2)
    ensures id1 in Ids(c.tarjetas)
  {
    var p1 := c.EnviarBajaTarjeta(id1);
    var p2 := c.EnviarBajaTarjeta(id2);
    c.ResolverBajaTarjeta(p1, true);
    assert id1 !in Ids(c.tarjetas) by { RemoveByIdKeepsDistinct(p1.instantanea, id1); }
    c.ResolverBajaTarjeta(p2, true);
    RemoveByIdKeepsDistinct(old(c.tarjetas), id2);
  }
}
