/** The legacy top-level screen (src/App.tsx): it owns one list per entity
    and the category list, and every handler replaces one of them with an
    appended, mapped or filtered copy. */
module App {
  import opened Js
  import opened Lists
  import FormularioGasto
  import FormularioAhorro
  import FormularioInversion
  import FormularioDeuda
  import GestionTarjetas
  import GestionBancos
  import PlanificacionMensual
  import SupabaseService

  type Objetivo = PlanificacionMensual.Objetivo

  /** The eight categories the list starts with, in order. */
  const CategoriasIniciales: seq<string> :=
    ["Alimentación", "Transporte", "Vivienda", "Servicios", "Entretenimiento", "Salud", "Educación", "Otros"]

  /** The initial list has no duplicates, and the expense form's preselected
      category is its first entry. */
  lemma CategoriasInicialesUnicas()
    ensures |CategoriasIniciales| == 8 && Distinct(CategoriasIniciales)
    ensures CategoriasIniciales[0] == FormularioGasto.CategoriaInicial
  {
    var c := CategoriasIniciales;
    forall i, j | 0 <= i < j < |c| ensures c[i] != c[j] {
      assert |c[0]| == 12 && |c[1]| == 10 && |c[2]| == 8 && |c[3]| == 9;
      assert |c[4]| == 15 && |c[5]| == 5 && |c[6]| == 9 && |c[7]| == 5;
      assert c[3][0] != c[6][0];
      assert c[5][0] != c[7][0];
    }
  }

  /** `nuevoProgreso >= obj.cantidad`: false when the target is NaN. */
  predicate Alcanzado(progreso: real, cantidad: Num) {
    cantidad.Num? && progreso >= cantidad.value
  }

  /** A goal's completion flag agrees with its progress. */
  predicate Coherente(o: Objetivo) {
    o.completado == Alcanzado(o.progreso, o.cantidad)
  }

  /** A goal as `handleNuevoObjetivo` stores it: not completed, no progress. */
  function Crear(n: PlanificacionMensual.NuevoObjetivo): (o: Objetivo)
    ensures !o.completado && o.progreso == 0.0
    ensures o.mes == n.mes && o.anio == n.anio && o.tipo == n.tipo
            && o.descripcion == n.descripcion && o.cantidad == n.cantidad
    ensures !AtMost(n.cantidad, 0.0) ==> Coherente(o)
  {
    PlanificacionMensual.Objetivo(n.mes, n.anio, n.tipo, n.descripcion, n.cantidad, false, 0.0)
  }

  /** The per-goal step of `handleActualizarProgresoObjetivo`. */
  function ConProgreso(o: Objetivo, progreso: real): (r: Objetivo)
    ensures r.progreso == progreso && Coherente(r)
    ensures r.(progreso := o.progreso, completado := o.completado) == o
  {
    o.(progreso := progreso, completado := Alcanzado(progreso, o.cantidad))
  }

  /** `objetivos.map(...)` of `handleActualizarProgresoObjetivo`. */
  function ActualizarProgreso(s: seq<Rec<Objetivo>>, id: Id, progreso: real): seq<Rec<Objetivo>>
  {
    UpdateById(s, id, o => ConProgreso(o, progreso))
  }

  /** A progress update keeps the length and every goal with another id;
      each goal with that id gets the new progress, its completion flag
      becomes `progreso >= cantidad`, and nothing else about it changes. */
  lemma ActualizarProgresoForma(s: seq<Rec<Objetivo>>, id: Id, progreso: real)
    ensures |ActualizarProgreso(s, id, progreso)| == |s|
    ensures forall k :: 0 <= k < |s| && s[k].id != id ==> ActualizarProgreso(s, id, progreso)[k] == s[k]
    ensures forall k :: 0 <= k < |s| && s[k].id == id ==>
      var o := ActualizarProgreso(s, id, progreso)[k];
      o.id == id && o.val.progreso == progreso
      && (o.val.completado <==> o.val.cantidad.Num? && progreso >= o.val.cantidad.value)
      && o.val.(progreso := s[k].val.progreso, completado := s[k].val.completado) == s[k].val
    ensures Ids(ActualizarProgreso(s, id, progreso)) == Ids(s)
  {
    UpdateByIdKeepsIds(s, id, o => ConProgreso(o, progreso));
  }

  /** The service's `updateProgresoObjetivo` decides completion by
      `progreso >= 100` instead: a goal of 50 with progress 60 is completed
      here and not there, and one of 200 with progress 150 the other way round. */
  lemma ReglaDelServicioDifiere(id: Id, resultado: SupabaseService.Insercion<Rec<SupabaseService.ObjetivoFila>>)
    ensures Alcanzado(60.0, Num(50.0))
    ensures !SupabaseService.UpdateProgresoObjetivo(id, Num(60.0), resultado).enviado.value.completado
    ensures !Alcanzado(150.0, Num(200.0))
    ensures SupabaseService.UpdateProgresoObjetivo(id, Num(150.0), resultado).enviado.value.completado
  {
  }

  /** The two rules agree on every progress value exactly when the target is 100. */
  lemma ReglasCoincidenConMetaCien(id: Id, cantidad: Num, resultado: SupabaseService.Insercion<Rec<SupabaseService.ObjetivoFila>>)
    ensures (forall p: real :: Alcanzado(p, cantidad) == SupabaseService.UpdateProgresoObjetivo(id, Num(p), resultado).enviado.value.completado)
            <==> cantidad == Num(100.0)
  {
    if cantidad != Num(100.0) {
      var p := if cantidad.NaN? then 100.0 else if cantidad.value < 100.0 then cantidad.value else 100.0;
      assert Alcanzado(p, cantidad) != SupabaseService.UpdateProgresoObjetivo(id, Num(p), resultado).enviado.value.completado;
    }
  }

  /** Goals whose target is not a number <= 0 have a coherent completion flag. */
  predicate ObjetivosCoherentes(s: seq<Rec<Objetivo>>) {
    forall k :: 0 <= k < |s| && !AtMost(s[k].val.cantidad, 0.0) ==> Coherente(s[k].val)
  }

  /** Adding a fresh goal keeps the completion flags coherent. */
  lemma CoherenciaAlCrear(s: seq<Rec<Objetivo>>, n: PlanificacionMensual.NuevoObjetivo, id: Id)
    requires ObjetivosCoherentes(s)
    ensures ObjetivosCoherentes(s + [Rec(id, Crear(n))])
  {
    var a := s + [Rec(id, Crear(n))];
    forall k | 0 <= k < |a| && !AtMost(a[k].val.cantidad, 0.0) ensures Coherente(a[k].val) {
      if k < |s| { assert a[k] == s[k]; }
    }
  }

  /** A progress update keeps the completion flags coherent. */
  lemma CoherenciaAlActualizar(s: seq<Rec<Objetivo>>, id: Id, progreso: real)
    requires ObjetivosCoherentes(s)
    ensures ObjetivosCoherentes(ActualizarProgreso(s, id, progreso))
  {
  }

  /** Deleting a goal keeps the completion flags of the others coherent. */
  lemma CoherenciaAlEliminar(s: seq<Rec<Objetivo>>, id: Id)
    requires ObjetivosCoherentes(s)
    ensures ObjetivosCoherentes(RemoveById(s, id))
  {
    var r := RemoveById(s, id);
    forall k | 0 <= k < |r| && !AtMost(r[k].val.cantidad, 0.0) ensures Coherente(r[k].val) {
      assert r[k] in s;
    }
  }

  /** Under the screen's own rule a goal shows "Completado" exactly when its
      progress has reached a numeric target, and otherwise shows a
      percentage of at most 100 and the progress input. */
  lemma EtiquetaTrasActualizar(o: Objetivo, progreso: real)
    requires o.cantidad.Num? && o.cantidad.value > 0.0
    ensures PlanificacionMensual.Mostrar(ConProgreso(o, progreso)).Completado? <==> progreso >= o.cantidad.value
    ensures progreso < o.cantidad.value ==>
      PlanificacionMensual.MuestraEntradaProgreso(ConProgreso(o, progreso))
      && PlanificacionMensual.Mostrar(ConProgreso(o, progreso)).valor <= 100
  {
    if progreso < o.cantidad.value {
      PlanificacionMensual.PorcentajeBajoLaMeta(progreso, o.cantidad.value);
    }
  }

  /** All lists of the screen, as one value. */
  datatype Listas = Listas(
    gastos: seq<Rec<FormularioGasto.Movimiento>>,
    ahorros: seq<Rec<FormularioAhorro.Ahorro>>,
    inversiones: seq<Rec<FormularioInversion.Inversion>>,
    deudas: seq<Rec<FormularioDeuda.Deuda>>,
    tarjetas: seq<Rec<GestionTarjetas.Tarjeta>>,
    bancos: seq<Rec<GestionBancos.Banco>>,
    objetivos: seq<Rec<Objetivo>>,
    categorias: seq<string>)

  /** The screen's state slots. */
  class Screen {
    var gastos: seq<Rec<FormularioGasto.Movimiento>>
    var ahorros: seq<Rec<FormularioAhorro.Ahorro>>
    var inversiones: seq<Rec<FormularioInversion.Inversion>>
    var deudas: seq<Rec<FormularioDeuda.Deuda>>
    var tarjetas: seq<Rec<GestionTarjetas.Tarjeta>>
    var bancos: seq<Rec<GestionBancos.Banco>>
    var objetivos: seq<Rec<Objetivo>>
    var categorias: seq<string>

    function Vista(): Listas
      reads this
    {
      Listas(gastos, ahorros, inversiones, deudas, tarjetas, bancos, objetivos, categorias)
    }

    /** Ids are unique within each list and goal flags are coherent. */
    ghost predicate Valid()
      reads this
    {
      && DistinctIds(gastos) && DistinctIds(ahorros) && DistinctIds(inversiones)
      && DistinctIds(deudas) && DistinctIds(tarjetas) && DistinctIds(bancos)
      && DistinctIds(objetivos) && ObjetivosCoherentes(objetivos)
    }

    constructor ()
      ensures Valid()
      ensures Vista() == Listas([], [], [], [], [], [], [], CategoriasIniciales)
    {
      gastos, ahorros, inversiones, deudas := [], [], [], [];
      tarjetas, bancos, objetivos := [], [], [];
      categorias := CategoriasIniciales;
    }

    /** `handleNuevoGasto`, with the id `crypto.randomUUID` would give. */
    method NuevoGasto(g: FormularioGasto.Movimiento, id: Id)
      requires Valid() && id !in Ids(gastos)
      modifies this
      ensures Valid()
      ensures Vista() == old(Vista()).(gastos := old(gastos) + [Rec(id, g)])
    {
      AppendFreshKeepsDistinct(gastos, Rec(id, g));
      gastos := gastos + [Rec(id, g)];
    }

    /** `handleNuevoAhorro`. */
    method NuevoAhorro(a: FormularioAhorro.Ahorro, id: Id)
      requires Valid() && id !in Ids(ahorros)
      modifies this
      ensures Valid()
      ensures Vista() == old(Vista()).(ahorros := old(ahorros) + [Rec(id, a)])
    {
      AppendFreshKeepsDistinct(ahorros, Rec(id, a));
      ahorros := ahorros + [Rec(id, a)];
    }

    /** `handleNuevaInversion`. */
    method NuevaInversion(i: FormularioInversion.Inversion, id: Id)
      requires Valid() && id !in Ids(inversiones)
      modifies this
      ensures Valid()
      ensures Vista() == old(Vista()).(inversiones := old(inversiones) + [Rec(id, i)])
    {
      AppendFreshKeepsDistinct(inversiones, Rec(id, i));
      inversiones := inversiones + [Rec(id, i)];
    }

    /** `handleNuevaDeuda`. */
    method NuevaDeuda(d: FormularioDeuda.Deuda, id: Id)
      requires Valid() && id !in Ids(deudas)
      modifies this
      ensures Valid()
      ensures Vista() == old(Vista()).(deudas := old(deudas) + [Rec(id, d)])
    {
      AppendFreshKeepsDistinct(deudas, Rec(id, d));
      deudas := deudas + [Rec(id, d)];
    }

    /** `handleNuevaTarjeta`. */
    method NuevaTarjeta(t: GestionTarjetas.Tarjeta, id: Id)
      requires Valid() && id !in Ids(tarjetas)
      modifies this
      ensures Valid()
      ensures Vista() == old(Vista()).(tarjetas := old(tarjetas) + [Rec(id, t)])
    {
      AppendFreshKeepsDistinct(tarjetas, Rec(id, t));
      tarjetas := tarjetas + [Rec(id, t)];
    }

    /** `handleEditarTarjeta`: the card with that id becomes `{ ...t, id }`. */
    method EditarTarjeta(id: Id, t: GestionTarjetas.Tarjeta)
      requires Valid()
      modifies this
      ensures Valid()
      ensures Vista() == old(Vista()).(tarjetas := ReplaceById(old(tarjetas), id, t))
    {
      UpdateByIdKeepsIds(tarjetas, id, _ => t);
      tarjetas := ReplaceById(tarjetas, id, t);
    }

    /** `handleEliminarTarjeta`. */
    method EliminarTarjeta(id: Id)
      requires Valid()
      modifies this
      ensures Valid()
      ensures Vista() == old(Vista()).(tarjetas := RemoveById(old(tarjetas), id))
    {
      RemoveByIdKeepsDistinct(tarjetas, id);
      tarjetas := RemoveById(tarjetas, id);
    }

    /** `handleNuevoBanco`. */
    method NuevoBanco(b: GestionBancos.Banco, id: Id)
      requires Valid() && id !in Ids(bancos)
      modifies this
      ensures Valid()
      ensures Vista() == old(Vista()).(bancos := old(bancos) + [Rec(id, b)])
    {
      AppendFreshKeepsDistinct(bancos, Rec(id, b));
      bancos := bancos + [Rec(id, b)];
    }

    /** `handleEditarBanco`. */
    method EditarBanco(id: Id, b: GestionBancos.Banco)
      requires Valid()
      modifies this
      ensures Valid()
      ensures Vista() == old(Vista()).(bancos := ReplaceById(old(bancos), id, b))
    {
      UpdateByIdKeepsIds(bancos, id, _ => b);
      bancos := ReplaceById(bancos, id, b);
    }

    /** `handleEliminarBanco`. */
    method EliminarBanco(id: Id)
      requires Valid()
      modifies this
      ensures Valid()
      ensures Vista() == old(Vista()).(bancos := RemoveById(old(bancos), id))
    {
      RemoveByIdKeepsDistinct(bancos, id);
      bancos := RemoveById(bancos, id);
    }

    /** `handleNuevaCategoria`: appends whatever it is given. */
    method NuevaCategoria(c: string)
      requires Valid()
      modifies this
      ensures Valid()
      ensures Vista() == old(Vista()).(categorias := old(categorias) + [c])
    {
      categorias := categorias + [c];
    }

    /** `handleEditarCategoria`: copy the list, overwrite one position. */
    method EditarCategoria(index: nat, c: string)
      requires Valid() && index < |categorias|
      modifies this
      ensures Valid()
      ensures Vista() == old(Vista()).(categorias := old(categorias)[index := c])
    {
      categorias := categorias[index := c];
    }

    /** `handleEliminarCategoria`: keeps every position but `index`. */
    method EliminarCategoria(index: int)
      requires Valid()
      modifies this
      ensures Valid()
      ensures Vista() == old(Vista()).(categorias := FilterIndex(old(categorias), index))
    {
      categorias := FilterIndex(categorias, index);
    }

    /** `handleNuevoObjetivo`: a fresh goal, not completed, with no progress. */
    method NuevoObjetivo(n: PlanificacionMensual.NuevoObjetivo, id: Id)
      requires Valid() && id !in Ids(objetivos)
      modifies this
      ensures Valid()
      ensures Vista() == old(Vista()).(objetivos := old(objetivos) + [Rec(id, Crear(n))])
    {
      AppendFreshKeepsDistinct(objetivos, Rec(id, Crear(n)));
      CoherenciaAlCrear(objetivos, n, id);
      objetivos := objetivos + [Rec(id, Crear(n))];
    }

    /** `handleActualizarProgresoObjetivo`. */
    method ActualizarProgresoObjetivo(id: Id, progreso: real)
      requires Valid()
      modifies this
      ensures Valid()
      ensures Vista() == old(Vista()).(objetivos := ActualizarProgreso(old(objetivos), id, progreso))
    {
      UpdateByIdKeepsIds(objetivos, id, o => ConProgreso(o, progreso));
      CoherenciaAlActualizar(objetivos, id, progreso);
      objetivos := ActualizarProgreso(objetivos, id, progreso);
    }

    /** `handleEliminarObjetivo`. */
    method EliminarObjetivo(id: Id)
      requires Valid()
      modifies this
      ensures Valid()
      ensures Vista() == old(Vista()).(objetivos := RemoveById(old(objetivos), id))
    {
      RemoveByIdKeepsDistinct(objetivos, id);
      CoherenciaAlEliminar(objetivos, id);
      objetivos := RemoveById(objetivos, id);
    }
  }
}
