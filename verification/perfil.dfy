/** The profile page: the editable name and DNI, their save with the answer merged over the
    member's cached record, the dues summary, the member's payments newest first, and the
    three "do I have any" flags. */
module Perfil {
  import opened Options
  import opened Text
  import opened Seqs
  import opened ClubTypes
  import opened DataContext
  import Register
  import Cuotas

  const Guardado := "Datos guardados ✅"
  const ErrorGuardar := "Error al guardar ❌"
  const SinPeriodo := "-"

  /** `usuarios.map(u => u.id === id ? { ...u, ...patch } : u)`. */
  function MergeById(usuarios: seq<Usuario>, id: Id, patch: UsuarioPatch): (r: seq<Usuario>)
    ensures |r| == |usuarios|
    ensures forall i :: 0 <= i < |r| && usuarios[i].id == id ==> r[i] == Merge(usuarios[i], patch)
    ensures forall i :: 0 <= i < |r| && usuarios[i].id != id ==> r[i] == usuarios[i]
  {
    if usuarios == [] then []
    else
      var head := if usuarios[0].id == id then Merge(usuarios[0], patch) else usuarios[0];
      [head] + MergeById(usuarios[1..], id, patch)
  }

  /** When no cached member has the id, the merge changes nothing. */
  lemma {:induction false} MergeByIdAbsent(usuarios: seq<Usuario>, id: Id, patch: UsuarioPatch)
    requires forall i :: 0 <= i < |usuarios| ==> usuarios[i].id != id
    ensures MergeById(usuarios, id, patch) == usuarios
  {
    var r := MergeById(usuarios, id, patch);
    assert forall i :: 0 <= i < |r| ==> r[i] == usuarios[i];
  }

  /** An answer that leaves the id alone (carries none, or the same one) keeps every id in
      place, so the list keeps exactly the members it had. */
  lemma MergeByIdKeepsIds(usuarios: seq<Usuario>, id: Id, patch: UsuarioPatch)
    requires patch.id.None? || patch.id == Some(id)
    ensures forall i :: 0 <= i < |usuarios| ==> MergeById(usuarios, id, patch)[i].id == usuarios[i].id
  {
  }

  /** Merging the same answer twice is merging it once. */
  lemma MergeByIdIdempotent(usuarios: seq<Usuario>, id: Id, patch: UsuarioPatch)
    requires patch.id.None? || patch.id == Some(id)
    ensures MergeById(MergeById(usuarios, id, patch), id, patch) == MergeById(usuarios, id, patch)
  {
    var once := MergeById(usuarios, id, patch);
    var twice := MergeById(once, id, patch);
    forall i | 0 <= i < |usuarios|
      ensures twice[i] == once[i]
    {
      if usuarios[i].id == id {
        MergeTwice(usuarios[i], patch);
      }
    }
  }

  /** `{ ...{ ...u, ...p }, ...p }` is `{ ...u, ...p }`. */
  lemma MergeTwice(u: Usuario, p: UsuarioPatch)
    ensures Merge(Merge(u, p), p) == Merge(u, p)
  {
  }

  /** `socio?.dni || ""`: a DNI of 0 or "" shows as empty; a numeric one shows its digits. */
  function DniDraftOf(socio: Option<Usuario>): (t: string)
    ensures socio.None? ==> t == ""
    ensures socio.Some? && socio.value.dni.DniText? ==> t == socio.value.dni.s
    ensures socio.Some? && socio.value.dni.DniNumber? ==>
              (t == "" <==> socio.value.dni.n == 0) &&
              (t != "" ==> AllDigits(t) && DigitsValue(t) == socio.value.dni.n)
  {
    if socio.None? then ""
    else match socio.value.dni
      case DniText(s) => s
      case DniNumber(n) =>
        NatToStringValue(n);
        if n == 0 then "" else NatToString(n)
  }

  /** `pagosUser`: the member's payments, newest first; `time` reads a payment date. */
  function PagosUser(pagos: seq<Pago>, userId: Id, time: string -> int): (r: seq<Pago>)
    ensures forall p :: p in r <==> p in pagos && p.userId == userId
    ensures forall i, j :: 0 <= i < j < |r| ==> time(r[i].fecha) >= time(r[j].fecha)
    ensures forall x :: multiset(r)[x] == if x.userId == userId then multiset(pagos)[x] else 0
  {
    var mine := Filter(pagos, (p: Pago) => p.userId == userId);
    FilterCount(pagos, (p: Pago) => p.userId == userId);
    SortByMembers(mine, (p: Pago) => -time(p.fecha));
    SortBy(mine, (p: Pago) => -time(p.fecha))
  }

  /** `ultimoPago`: the first of `pagosUser`, or null. */
  function UltimoPago(pagos: seq<Pago>, userId: Id, time: string -> int): Option<Pago>
  {
    var mine := PagosUser(pagos, userId, time);
    if mine == [] then None else Some(mine[0])
  }

  /** The last payment is missing exactly when the member has none, and otherwise is one of
      the member's payments with no later date than it. */
  lemma UltimoPagoIsLatest(pagos: seq<Pago>, userId: Id, time: string -> int)
    ensures UltimoPago(pagos, userId, time).None? <==>
              forall i :: 0 <= i < |pagos| ==> pagos[i].userId != userId
    ensures UltimoPago(pagos, userId, time).Some? ==>
              var u := UltimoPago(pagos, userId, time).value;
              u in pagos && u.userId == userId &&
              forall i :: 0 <= i < |pagos| && pagos[i].userId == userId ==> time(pagos[i].fecha) <= time(u.fecha)
  {
    var mine := PagosUser(pagos, userId, time);
    if mine != [] {
      forall i | 0 <= i < |pagos| && pagos[i].userId == userId
        ensures time(pagos[i].fecha) <= time(mine[0].fecha)
      {
        assert pagos[i] in mine;
        var j :| 0 <= j < |mine| && mine[j] == pagos[i];
      }
    }
  }

  /** `tieneReserva`. */
  predicate TieneReserva(reservas: seq<Reserva>, userId: Id)
  {
    Any(reservas, (r: Reserva) => r.userId == userId)
  }

  /** On a class's roster: the roster is there and holds the id. */
  predicate EnRoster(c: Clase, userId: Id)
  {
    c.usuarios.Some? && userId in c.usuarios.value
  }

  /** `tieneClase`: a missing roster never counts. */
  predicate TieneClase(clases: seq<Clase>, userId: Id)
  {
    Any(clases, (c: Clase) => EnRoster(c, userId))
  }

  /** `tieneEntrada`. */
  predicate TieneEntrada(entradas: seq<Entrada>, userId: Id)
  {
    Any(entradas, (e: Entrada) => e.userId == userId)
  }

  /** The three flags hold exactly when some record names the member. */
  lemma TieneIff(c: Cache, userId: Id)
    ensures TieneReserva(c.reservas, userId) <==> exists i :: 0 <= i < |c.reservas| && c.reservas[i].userId == userId
    ensures TieneClase(c.clases, userId) <==>
              exists i :: 0 <= i < |c.clases| && c.clases[i].usuarios.Some? && userId in c.clases[i].usuarios.value
    ensures TieneEntrada(c.entradas, userId) <==> exists i :: 0 <= i < |c.entradas| && c.entradas[i].userId == userId
  {
  }

  /** `periodo`: "MM/YYYY" when the record carries a period, "-" otherwise. */
  function Periodo(socio: Option<Usuario>): string
  {
    Cuotas.PeriodoOr(socio, SinPeriodo)
  }

  /** The profile's form and message. */
  class PerfilPage {
    var nombreDraft: string
    var apellidoDraft: string
    var dniDraft: string
    var msg: string

    /** The drafts start from the member's record (`socio?.nombre || ""` and so on). */
    constructor (socio: Option<Usuario>)
      ensures nombreDraft == (if socio.Some? then socio.value.nombre else "")
      ensures apellidoDraft == (if socio.Some? then socio.value.apellido else "")
      ensures dniDraft == DniDraftOf(socio)
      ensures msg == ""
    {
      nombreDraft := if socio.Some? then socio.value.nombre else "";
      apellidoDraft := if socio.Some? then socio.value.apellido else "";
      dniDraft := DniDraftOf(socio);
      msg := "";
    }

    method SetNombre(v: string)
      modifies this`nombreDraft
      ensures nombreDraft == v
    {
      nombreDraft := v;
    }

    method SetApellido(v: string)
      modifies this`apellidoDraft
      ensures apellidoDraft == v
    {
      apellidoDraft := v;
    }

    /** The DNI input's `onChange`: digits only, at most eight, as on the sign-up form. */
    method OnDniInput(raw: string)
      modifies this`dniDraft
      ensures dniDraft == Register.SanitizeDni(raw)
      ensures AllDigits(dniDraft) && |dniDraft| <= Register.MaxDni
    {
      dniDraft := Register.SanitizeDni(raw);
    }

    /** `guardarDatos`: send the three drafts; on a 2xx merge the answer over the member's
        cached record and nothing else; on any failure leave the cache as it was. */
    method GuardarDatos(store: DataStore, userId: Id, res: Reply<UsuarioPatch>) returns (sent: Request)
      modifies this`msg, store`state
      ensures sent == PutUsuario(userId, nombreDraft, apellidoDraft, dniDraft)
      ensures res.Ok? ==> msg == Guardado &&
                          store.state == old(store.state).(usuarios := MergeById(old(store.state.usuarios), userId, res.data))
      ensures !res.Ok? ==> msg == ErrorGuardar && store.state == old(store.state)
    {
      sent := PutUsuario(userId, nombreDraft, apellidoDraft, dniDraft);
      if res.Ok? {
        store.SetState(store.state.(usuarios := MergeById(store.state.usuarios, userId, res.data)));
        msg := Guardado;
      } else {
        msg := ErrorGuardar;
      }
    }
  }
}
