/** The member's activity list: their court bookings, the classes whose roster holds them and
    their ticket orders, merged and sorted by date. The browser's date parsing, its clock and
    its locale formatting are parameters: `dateOf` reads a date text as a time, `now` is the
    time of rendering and `localeText` formats a match date. */
module MisActividades {
  import opened Options
  import opened Seqs
  import opened ClubTypes
  import Perfil
  import Entradas

  const SinActividades := "No tenés actividades registradas todavía."

  /** One card of the list, with the time it sorts by. */
  datatype Actividad =
    | ReservaAct(fechaSort: int, fecha: string, cancha: Option<string>, horaInicio: string, horaFin: string)
    | ClaseAct(fechaSort: int, disciplina: string, diaSemana: string, hora: string)
    | EntradaAct(fechaSort: int, torneo: Option<string>, rival: Option<string>, estadio: Option<string>,
                 fecha: string, cantidad: int)

  function FechaSort(a: Actividad): int
  {
    a.fechaSort
  }

  /** The card of a booking: sorted by `new Date(`${fecha}T${horaInicio}`)`, with the court's
      name when the court is cached. */
  function ReservaItem(r: Reserva, canchas: seq<Cancha>, dateOf: string -> int): (a: Actividad)
    ensures a.ReservaAct? && a.fecha == r.fecha && a.horaInicio == r.horaInicio && a.horaFin == r.horaFin
    ensures a.fechaSort == dateOf(r.fecha + "T" + r.horaInicio)
    ensures a.cancha.None? <==> forall i :: 0 <= i < |canchas| ==> canchas[i].id != r.canchaId
    ensures a.cancha.Some? ==>
              exists i :: 0 <= i < |canchas| && canchas[i].id == r.canchaId && canchas[i].nombre == a.cancha.value
  {
    var c := Find(canchas, (c: Cancha) => c.id == r.canchaId);
    ReservaAct(dateOf(r.fecha + "T" + r.horaInicio), r.fecha, if c.Some? then Some(c.value.nombre) else None,
               r.horaInicio, r.horaFin)
  }

  /** The card of a class: classes have no date, so they sort at `now`. */
  function ClaseItem(c: Clase, now: int): (a: Actividad)
    ensures a.ClaseAct? && a.fechaSort == now
    ensures a.disciplina == c.disciplina && a.diaSemana == c.diaSemana && a.hora == c.hora
  {
    ClaseAct(now, c.disciplina, c.diaSemana, c.hora)
  }

  /** The card of a ticket order: with its match cached, the match's date, tournament, rival
      and stadium; without it, sorted at `now` with an empty date and nothing else. */
  function EntradaItem(e: Entrada, partidos: seq<Partido>, now: int, dateOf: string -> int,
                       localeText: string -> string): (a: Actividad)
    ensures a.EntradaAct? && a.cantidad == e.cantidad
    ensures (forall i :: 0 <= i < |partidos| ==> partidos[i].id != e.partidoId) ==>
              a.fechaSort == now && a.fecha == "" && a.torneo.None? && a.rival.None? && a.estadio.None?
    ensures a.rival.Some? ==>
              exists i :: 0 <= i < |partidos| && partidos[i].id == e.partidoId && partidos[i].rival == a.rival.value
                && a.fechaSort == dateOf(partidos[i].fechaHora) && a.fecha == localeText(partidos[i].fechaHora)
                && a.torneo == partidos[i].torneo && a.estadio == partidos[i].estadio
    ensures a.rival.None? ==> forall i :: 0 <= i < |partidos| ==> partidos[i].id != e.partidoId
  {
    var p := Find(partidos, (p: Partido) => p.id == e.partidoId);
    if p.Some? then
      EntradaAct(dateOf(p.value.fechaHora), p.value.torneo, Some(p.value.rival), p.value.estadio,
                 localeText(p.value.fechaHora), e.cantidad)
    else
      EntradaAct(now, None, None, None, "", e.cantidad)
  }

  /** The member's bookings (`r.userId === user.id`). */
  function MisReservas(reservas: seq<Reserva>, userId: Id): seq<Reserva>
  {
    Filter(reservas, (r: Reserva) => r.userId == userId)
  }

  /** The classes whose roster holds the member (`Array.isArray(c.Usuarios) && …some`). */
  function MisClases(clases: seq<Clase>, userId: Id): seq<Clase>
  {
    Filter(clases, (c: Clase) => Perfil.EnRoster(c, userId))
  }

  /** `reservasUser`: one card per booking of the member, in order. */
  function ReservasUser(reservas: seq<Reserva>, canchas: seq<Cancha>, userId: Id, dateOf: string -> int)
    : (r: seq<Actividad>)
    ensures |r| == |MisReservas(reservas, userId)|
    ensures forall i :: 0 <= i < |r| ==> r[i] == ReservaItem(MisReservas(reservas, userId)[i], canchas, dateOf)
  {
    var mine := MisReservas(reservas, userId);
    seq(|mine|, i requires 0 <= i < |mine| => ReservaItem(mine[i], canchas, dateOf))
  }

  /** `clasesUser`: one card per class of the member, in order. */
  function ClasesUser(clases: seq<Clase>, userId: Id, now: int): (r: seq<Actividad>)
    ensures |r| == |MisClases(clases, userId)|
    ensures forall i :: 0 <= i < |r| ==> r[i] == ClaseItem(MisClases(clases, userId)[i], now)
  {
    var mine := MisClases(clases, userId);
    seq(|mine|, i requires 0 <= i < |mine| => ClaseItem(mine[i], now))
  }

  /** `entradasUser`: one card per ticket order of the member, in order. */
  function EntradasUser(entradas: seq<Entrada>, partidos: seq<Partido>, userId: Id, now: int,
                        dateOf: string -> int, localeText: string -> string): (r: seq<Actividad>)
    ensures |r| == |Entradas.EntradasUser(entradas, userId)|
    ensures forall i :: 0 <= i < |r| ==>
              r[i] == EntradaItem(Entradas.EntradasUser(entradas, userId)[i], partidos, now, dateOf, localeText)
  {
    var mine := Entradas.EntradasUser(entradas, userId);
    seq(|mine|, i requires 0 <= i < |mine| => EntradaItem(mine[i], partidos, now, dateOf, localeText))
  }

  /** `actividades`: the three lists together, sorted by `fechaSort`, earliest first. */
  function Actividades(c: Cache, userId: Id, now: int, dateOf: string -> int, localeText: string -> string)
    : (r: seq<Actividad>)
    ensures multiset(r) == multiset(ReservasUser(c.reservas, c.canchas, userId, dateOf)
                                    + ClasesUser(c.clases, userId, now)
                                    + EntradasUser(c.entradas, c.partidos, userId, now, dateOf, localeText))
    ensures |r| == |MisReservas(c.reservas, userId)| + |MisClases(c.clases, userId)|
                   + |Entradas.EntradasUser(c.entradas, userId)|
    ensures SortedBy(r, FechaSort)
  {
    SortBy(ReservasUser(c.reservas, c.canchas, userId, dateOf)
           + ClasesUser(c.clases, userId, now)
           + EntradasUser(c.entradas, c.partidos, userId, now, dateOf, localeText), FechaSort)
  }

  /** The list shows its empty message exactly when the profile's three flags are all down:
      no booking, no class roster and no ticket order names the member. */
  lemma EmptyIffNothingToShow(c: Cache, userId: Id, now: int, dateOf: string -> int, localeText: string -> string)
    ensures Actividades(c, userId, now, dateOf, localeText) == [] <==>
              !Perfil.TieneReserva(c.reservas, userId) && !Perfil.TieneClase(c.clases, userId)
              && !Perfil.TieneEntrada(c.entradas, userId)
  {
    CountExtremes(c.reservas, (r: Reserva) => r.userId == userId);
    CountExtremes(c.clases, (k: Clase) => Perfil.EnRoster(k, userId));
    CountExtremes(c.entradas, (e: Entrada) => e.userId == userId);
    Perfil.TieneIff(c, userId);
  }

  /** Every class card in the list carries the time of rendering. */
  lemma ClaseCardAtNow(c: Cache, userId: Id, now: int, dateOf: string -> int, localeText: string -> string,
                       x: Actividad)
    requires x in Actividades(c, userId, now, dateOf, localeText) && x.ClaseAct?
    ensures x.fechaSort == now
  {
    var ru := ReservasUser(c.reservas, c.canchas, userId, dateOf);
    var cu := ClasesUser(c.clases, userId, now);
    var eu := EntradasUser(c.entradas, c.partidos, userId, now, dateOf, localeText);
    assert x in ru + cu + eu by {
      assert x in multiset(Actividades(c, userId, now, dateOf, localeText));
    }
    assert x !in ru by {
      forall k | 0 <= k < |ru| ensures ru[k].ReservaAct? {}
    }
    assert x !in eu by {
      forall k | 0 <= k < |eu| ensures eu[k].EntradaAct? {}
    }
    assert x in cu;
  }

  /** Classes sort at the time of rendering, not at the bottom: every card dated before `now`
      comes before every class, and every card dated after `now` comes after every class. */
  lemma ClasesSitAtNow(c: Cache, userId: Id, now: int, dateOf: string -> int, localeText: string -> string,
                       i: int, j: int)
    requires 0 <= i < |Actividades(c, userId, now, dateOf, localeText)|
    requires 0 <= j < |Actividades(c, userId, now, dateOf, localeText)|
    requires Actividades(c, userId, now, dateOf, localeText)[i].ClaseAct?
    ensures Actividades(c, userId, now, dateOf, localeText)[j].fechaSort < now ==> j < i
    ensures Actividades(c, userId, now, dateOf, localeText)[j].fechaSort > now ==> i < j
  {
    var r := Actividades(c, userId, now, dateOf, localeText);
    ClaseCardAtNow(c, userId, now, dateOf, localeText, r[i]);
    assert FechaSort(r[i]) == now;
    assert FechaSort(r[j]) == r[j].fechaSort;
  }
}
