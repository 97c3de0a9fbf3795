/** The admin's match page: the form that appends a match to the cache directly (no request is
    sent), the rivals it offers, and the stock badge of each row. */
module PartidosAbm {
  import opened Options
  import opened Text
  import opened ClubTypes
  import opened DataContext
  import Register

  const PartidoAgregado := "Partido agregado con éxito ✅"
  const Success := "success"
  const Error := "error"

  /** The rivals the select offers, after its empty "Seleccionar rival..." choice. */
  const RivalesDisponibles: seq<string> := [
    "Boca Juniors", "River Plate", "San Lorenzo", "Racing Club", "Independiente",
    "Estudiantes LP", "Gimnasia LP", "Rosario Central", "Newell’s Old Boys", "Vélez Sarsfield"]

  /** Ten rivals, none twice and none empty, so picking any of them fills the field. */
  lemma RivalesDistinct()
    ensures |RivalesDisponibles| == 10
    ensures forall i, j :: 0 <= i < j < |RivalesDisponibles| ==> RivalesDisponibles[i] != RivalesDisponibles[j]
    ensures forall i :: 0 <= i < |RivalesDisponibles| ==> RivalesDisponibles[i] != ""
  {
  }

  /** `nuevoPartido`: id `Date.now()`, the typed rival and date, `parseInt` of the stock, and
      no tournament or stadium. */
  function NuevoPartidoOf(now: Id, rival: string, fechaHora: string, stock: string): (p: Partido)
    ensures p.id == now && p.rival == rival && p.fechaHora == fechaHora
    ensures p.torneo.None? && p.estadio.None?
    ensures forall n: int :: stock == IntToString(n) ==> p.stockEntradas == Int(n)
  {
    forall n: int | stock == IntToString(n)
      ensures ParseInt(stock) == Int(n)
    {
      ParseIntRoundTrip(n);
    }
    Partido(now, None, rival, fechaHora, None, ParseInt(stock))
  }

  /** The stock badge: `p.stockEntradas > 0` (a `NaN` stock compares false). */
  function StockBadge(p: Partido): (v: string)
    ensures v == Success || v == Error
    ensures v == Success <==> p.stockEntradas.Int? && p.stockEntradas.v > 0
  {
    match p.stockEntradas
    case Int(n) => if n > 0 then Success else Error
    case NaN => Error
  }

  /** A match added with a positive stock typed as a number shows green; one with a stock of
      0 or a negative one shows red. */
  lemma AddedStockBadge(now: Id, rival: string, fechaHora: string, n: int)
    ensures StockBadge(NuevoPartidoOf(now, rival, fechaHora, IntToString(n))) == (if n > 0 then Success else Error)
  {
  }

  /** The form's state. */
  class PartidosPage {
    var rival: string
    var fechaHora: string
    var stockEntradas: string
    var error: Option<string>
    var success: Option<string>

    constructor ()
      ensures rival == "" && fechaHora == "" && stockEntradas == ""
      ensures error == None && success == None
    {
      rival, fechaHora, stockEntradas := "", "", "";
      error, success := None, None;
    }

    method SetRival(v: string)
      modifies this`rival
      ensures rival == v
    {
      rival := v;
    }

    method SetFechaHora(v: string)
      modifies this`fechaHora
      ensures fechaHora == v
    {
      fechaHora := v;
    }

    method SetStockEntradas(v: string)
      modifies this`stockEntradas
      ensures stockEntradas == v
    {
      stockEntradas := v;
    }

    /** `handleAgregar`: both messages are cleared; with a field empty the error is set and
        nothing else changes; otherwise the new match is appended to the cached matches and
        nothing else in the cache changes, the three fields are emptied and the success
        message is set. */
    method HandleAgregar(store: DataStore, now: Id)
      modifies this, store`state
      ensures old(rival == "" || fechaHora == "" || stockEntradas == "") ==>
                error == Some(Register.CamposObligatorios) && success == None
                && rival == old(rival) && fechaHora == old(fechaHora) && stockEntradas == old(stockEntradas)
                && store.state == old(store.state)
      ensures old(rival != "" && fechaHora != "" && stockEntradas != "") ==>
                error == None && success == Some(PartidoAgregado)
                && rival == "" && fechaHora == "" && stockEntradas == ""
                && store.state == old(store.state).(partidos := old(store.state.partidos) +
                                     [NuevoPartidoOf(now, old(rival), old(fechaHora), old(stockEntradas))])
    {
      error, success := None, None;
      if rival == "" || fechaHora == "" || stockEntradas == "" {
        error := Some(Register.CamposObligatorios);
        return;
      }
      var nuevo := NuevoPartidoOf(now, rival, fechaHora, stockEntradas);
      store.SetState(store.state.(partidos := store.state.partidos + [nuevo]));
      rival, fechaHora, stockEntradas := "", "", "";
      success := Some(PartidoAgregado);
    }
  }
}
