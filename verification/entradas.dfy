/** The ticket page: the match selector, the quantity input that clamps to 1..4, the checks of
    a purchase, and the member's own tickets. */
module Entradas {
  import opened Options
  import opened Text
  import opened Seqs
  import opened ClubTypes

  const PartidoInvalido := "Seleccioná un partido válido"
  const CantidadInvalida := "Solo podés comprar entre 1 y 4 entradas por operación"
  const CompraRealizada := "Compra realizada correctamente ✅"
  const MinEntradas := 1
  const MaxEntradas := 4

  /** `state.partidos[0]?.id ?? null`. */
  function InitialPartidoId(partidos: seq<Partido>): (id: Option<Id>)
    ensures id.None? <==> partidos == []
    ensures id.Some? ==> id.value == partidos[0].id
  {
    if partidos == [] then None else Some(partidos[0].id)
  }

  /** `partidoSeleccionado`: the first match with the selected id, if any. */
  function Selected(partidos: seq<Partido>, partidoId: Option<Id>): (p: Option<Partido>)
    ensures p.None? <==> partidoId.None? || forall i :: 0 <= i < |partidos| ==> partidos[i].id != partidoId.value
    ensures p.Some? ==> p.value in partidos && p.value.id == partidoId.value
  {
    if partidoId.None? then None else Find(partidos, (x: Partido) => x.id == partidoId.value)
  }

  /** The quantity the input keeps for a number typed in: below 1 becomes 1, above 4 becomes 4. */
  function Clamp(v: int): (c: int)
    ensures MinEntradas <= c <= MaxEntradas
    ensures MinEntradas <= v <= MaxEntradas ==> c == v
    ensures v < MinEntradas ==> c == MinEntradas
    ensures v > MaxEntradas ==> c == MaxEntradas
  {
    if v < MinEntradas then MinEntradas else if v > MaxEntradas then MaxEntradas else v
  }

  /** Clamping twice is clamping once. */
  lemma ClampIdempotent(v: int)
    ensures Clamp(Clamp(v)) == Clamp(v)
  {
  }

  /** The checks of `handleComprar`, in order: a selected match, then the quantity range. */
  function CompraCheck(partidos: seq<Partido>, partidoId: Option<Id>, cantidad: int): (refusal: Option<string>)
    ensures Selected(partidos, partidoId).None? ==> refusal == Some(PartidoInvalido)
    ensures Selected(partidos, partidoId).Some? && (cantidad < MinEntradas || cantidad > MaxEntradas) ==>
              refusal == Some(CantidadInvalida)
    ensures refusal.None? <==> Selected(partidos, partidoId).Some? && MinEntradas <= cantidad <= MaxEntradas
  {
    if Selected(partidos, partidoId).None? then Some(PartidoInvalido)
    else if cantidad < MinEntradas || cantidad > MaxEntradas then Some(CantidadInvalida)
    else None
  }

  /** `entradasUser`: the tickets of the member, in their order. */
  function EntradasUser(entradas: seq<Entrada>, userId: Id): (r: seq<Entrada>)
    ensures forall i :: 0 <= i < |r| ==> r[i] in entradas && r[i].userId == userId
    ensures forall i :: 0 <= i < |entradas| && entradas[i].userId == userId ==> entradas[i] in r
    ensures forall x :: multiset(r)[x] == if x.userId == userId then multiset(entradas)[x] else 0
    ensures KeepsInOrder(r, entradas, (e: Entrada) => e.userId == userId)
  {
    FilterCount(entradas, (e: Entrada) => e.userId == userId);
    FilterKeepsOrder(entradas, (e: Entrada) => e.userId == userId);
    Filter(entradas, (e: Entrada) => e.userId == userId)
  }

  /** The page state of the purchase form. */
  class EntradasPage {
    var partidoId: Option<Id>
    var cantidad: int
    var msg: string
    var msgType: string

    /** The quantity the input shows is always one the purchase accepts. */
    ghost predicate Valid()
      reads this
    {
      MinEntradas <= cantidad <= MaxEntradas
    }

    /** The form as it first shows: the first match, one ticket, no message. */
    constructor (partidos: seq<Partido>)
      ensures partidoId == InitialPartidoId(partidos) && cantidad == 1
      ensures msg == "" && msgType == "success"
      ensures Valid()
    {
      partidoId := InitialPartidoId(partidos);
      cantidad := 1;
      msg := "";
      msgType := "success";
    }

    /** The match selector: `setPartidoId(Number(value))`. */
    method SelectPartido(id: Id)
      modifies this`partidoId
      ensures partidoId == Some(id)
    {
      partidoId := Some(id);
    }

    /** The quantity input's `onChange`: NaN is ignored, anything else is clamped to 1..4. */
    method OnCantidadChange(val: Num)
      modifies this`cantidad
      ensures val.NaN? ==> cantidad == old(cantidad)
      ensures val.Int? ==> cantidad == Clamp(val.v)
      ensures old(Valid()) ==> Valid()
    {
      match val {
        case NaN =>
          return;
        case Int(v) =>
          if v < 1 {
            cantidad := 1;
          } else if v > 4 {
            cantidad := 4;
          } else {
            cantidad := v;
          }
      }
    }

    /** `handleComprar`: a refusal sets the error message and orders nothing; otherwise the
        match and quantity are handed to `comprarEntradas`, whose promise is not awaited, the
        success message is shown and the quantity goes back to 1. */
    method HandleComprar(partidos: seq<Partido>) returns (order: Option<(Id, int)>)
      modifies this`msg, this`msgType, this`cantidad
      ensures var refusal := CompraCheck(partidos, partidoId, old(cantidad));
              if refusal.Some? then
                order == None && msg == refusal.value && msgType == "error" && cantidad == old(cantidad)
              else
                order == Some((partidoId.value, old(cantidad))) && msg == CompraRealizada
                && msgType == "success" && cantidad == 1
      ensures old(Valid()) ==> Valid()
    {
      var seleccionado := Selected(partidos, partidoId);
      if seleccionado.None? {
        msg, msgType := PartidoInvalido, "error";
        return None;
      }
      if cantidad < 1 || cantidad > 4 {
        msg, msgType := CantidadInvalida, "error";
        return None;
      }
      order := Some((partidoId.value, cantidad));
      msg, msgType := CompraRealizada, "success";
      cantidad := 1;
    }
  }

  /** With a quantity kept by the input, a purchase on a selected match always goes through:
      the quantity check of `handleComprar` never fires from the form. */
  lemma ClampedNeverRefused(partidos: seq<Partido>, partidoId: Option<Id>, typed: int)
    requires Selected(partidos, partidoId).Some?
    ensures CompraCheck(partidos, partidoId, Clamp(typed)).None?
  {
  }
}
