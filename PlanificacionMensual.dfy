/** The monthly-goal screen (src/components/PlanificacionMensual.tsx): the
    new-goal form, the progress label and bar, and the progress input. */
module PlanificacionMensual {
  import opened Js

  datatype TipoObjetivo = Ahorro | Gasto | Inversion | Deuda

  datatype Form = Form(mes: int, anio: int, tipo: TipoObjetivo, descripcion: string, cantidad: string)

  /** The goal handed to `onAgregar` (id, progress and completion are added by the list owner). */
  datatype NuevoObjetivo = NuevoObjetivo(mes: int, anio: int, tipo: TipoObjetivo,
                                         descripcion: string, cantidad: Num)

  /** A stored goal as the screen reads it. */
  datatype Objetivo = Objetivo(mes: int, anio: int, tipo: TipoObjetivo, descripcion: string,
                               cantidad: Num, completado: bool, progreso: real)

  datatype Rechazo = CamposIncompletos

  /** The form as first shown and after a goal was added, for the current month and year. */
  function Inicial(mesActual: int, anioActual: int): Form {
    Form(mesActual, anioActual, Ahorro, "", "")
  }

  /** `handleSubmit`'s check and the goal it emits, `number` being `Number`. */
  function Validar(f: Form, number: Parser): (r: Result<NuevoObjetivo, Rechazo>)
    ensures r.Err? <==> (f.descripcion == "" || f.cantidad == "")
    ensures r.Ok? ==> r.value == NuevoObjetivo(f.mes, f.anio, f.tipo, f.descripcion, number(f.cantidad))
  {
    if f.descripcion == "" || f.cantidad == "" then Err(CamposIncompletos)
    else Ok(NuevoObjetivo(f.mes, f.anio, f.tipo, f.descripcion, number(f.cantidad)))
  }

  /** Every goal with a description is emitted by some form, whatever its
      target: nothing here demands a positive, or even numeric, target. */
  lemma ValidarAlcanzaTodo(n: NuevoObjetivo, cantidad: string, number: Parser)
    requires n.descripcion != "" && cantidad != "" && number(cantidad) == n.cantidad
    ensures Validar(Form(n.mes, n.anio, n.tipo, n.descripcion, cantidad), number) == Ok(n)
  {
  }

  /** `Math.round`, taken as rounding half up. */
  function Round(x: real): (r: int)
    ensures r as real - 0.5 <= x < r as real + 0.5
  {
    (x + 0.5).Floor
  }

  /** The raw ratio `progreso / cantidad * 100`. */
  function Ratio(progreso: real, cantidad: real): real
    requires cantidad > 0.0
  {
    progreso / cantidad * 100.0
  }

  /** What the goal card shows next to the target. */
  datatype Etiqueta = Completado | Porcentaje(valor: int)

  /** "Completado" for a completed goal, otherwise the rounded percentage. */
  function Mostrar(o: Objetivo): (e: Etiqueta)
    requires o.completado || (o.cantidad.Num? && o.cantidad.value > 0.0)
    ensures e.Completado? <==> o.completado
    ensures e.Porcentaje? ==> e.valor as real - 0.5 <= Ratio(o.progreso, o.cantidad.value) < e.valor as real + 0.5
  {
    if o.completado then Completado else Porcentaje(Round(Ratio(o.progreso, o.cantidad.value)))
  }

  /** The bar width `Math.min(progreso / cantidad * 100, 100)`. */
  function Ancho(progreso: real, cantidad: real): (w: real)
    requires cantidad > 0.0
    ensures w <= 100.0
    ensures w == 100.0 <==> progreso >= cantidad
    ensures progreso < cantidad ==> w == Ratio(progreso, cantidad)
    ensures progreso >= 0.0 ==> w >= 0.0
  {
    var x := Ratio(progreso, cantidad);
    RatioReachesHundred(progreso, cantidad);
    if x < 100.0 then x else 100.0
  }

  /** The ratio reaches 100 exactly when the progress reaches the target, and
      is not negative when the progress is not. */
  lemma RatioReachesHundred(progreso: real, cantidad: real)
    requires cantidad > 0.0
    ensures Ratio(progreso, cantidad) >= 100.0 <==> progreso >= cantidad
    ensures progreso >= 0.0 ==> Ratio(progreso, cantidad) >= 0.0
  {
    var q := progreso / cantidad;
    assert progreso == q * cantidad;
    if q >= 1.0 {
      assert q * cantidad >= 1.0 * cantidad;
    } else {
      assert q * cantidad < 1.0 * cantidad;
    }
  }

  /** A goal whose progress equals its target shows 100%. */
  lemma PorcentajeAlLlegar(cantidad: real)
    requires cantidad > 0.0
    ensures Round(Ratio(cantidad, cantidad)) == 100
  {
    assert cantidad / cantidad == 1.0;
  }

  /** Below the target the rounded percentage never exceeds 100. */
  lemma PorcentajeBajoLaMeta(progreso: real, cantidad: real)
    requires cantidad > 0.0 && progreso < cantidad
    ensures Round(Ratio(progreso, cantidad)) <= 100
  {
    RatioReachesHundred(progreso, cantidad);
  }

  /** The progress input's `onChange`: `Number(value)` is forwarded only when
      it is `>= 0` (so never NaN). */
  function ProgresoEnviado(valor: Num): (r: Option<real>)
    ensures r.Some? <==> AtLeast(valor, 0.0)
    ensures r.Some? ==> valor == Num(r.value) && r.value >= 0.0
  {
    if AtLeast(valor, 0.0) then Some(valor.value) else None
  }

  /** The progress input is rendered only for goals not yet completed. */
  predicate MuestraEntradaProgreso(o: Objetivo) {
    !o.completado
  }

  /** The new-goal form and its visibility. */
  class Component {
    var form: Form
    var mostrarFormulario: bool

    constructor (mesActual: int, anioActual: int)
      ensures form == Inicial(mesActual, anioActual) && !mostrarFormulario
    {
      form := Inicial(mesActual, anioActual);
      mostrarFormulario := false;
    }

    /** `handleSubmit`: on acceptance `onAgregar` gets the goal, the form is
        reset to the current month and hidden; on refusal nothing changes. */
    method HandleSubmit(number: Parser, mesActual: int, anioActual: int)
      returns (r: Result<NuevoObjetivo, Rechazo>)
      modifies this
      ensures r == Validar(old(form), number)
      ensures r.Ok? ==> form == Inicial(mesActual, anioActual) && !mostrarFormulario
      ensures r.Err? ==> form == old(form) && mostrarFormulario == old(mostrarFormulario)
    {
      r := Validar(form, number);
      if r.Ok? {
        form := Inicial(mesActual, anioActual);
        mostrarFormulario := false;
      }
    }
  }
}
