/** The records the portal's cache holds, as the pages read them, and the shapes of the
    requests sent to the backend and of the answers it gives back. */
module ClubTypes {
  import opened Options
  import opened Text

  /** Record ids: backend keys, or `Date.now()` for records made in the browser. */
  type Id = nat

  /** A DNI as the backend may hold it: a number or a string. Pages compare `String(dni)`. */
  datatype Dni = DniNumber(n: nat) | DniText(s: string)

  function DniString(d: Dni): string
  {
    match d
    case DniNumber(n) => NatToString(n)
    case DniText(s) => s
  }

  /** A member (`usuarios`), with the flat dues fields the backend sends. */
  datatype Usuario = Usuario(
    id: Id, nombre: string, apellido: string, dni: Dni, email: string, password: Option<string>,
    rol: string, activo: bool, foto: Option<string>,
    cuotaMes: Option<int>, cuotaAnio: Option<int>, cuotaEstado: Option<string>, cuotaMedio: Option<string>)

  /** An object spread over a member (`{ ...u, ...patch }`): the fields it carries win. */
  datatype UsuarioPatch = UsuarioPatch(
    id: Option<Id>, nombre: Option<string>, apellido: Option<string>, dni: Option<Dni>,
    email: Option<string>, rol: Option<string>, activo: Option<bool>, foto: Option<string>,
    cuotaMes: Option<int>, cuotaAnio: Option<int>, cuotaEstado: Option<string>, cuotaMedio: Option<string>)

  function Pick<T>(over: Option<T>, base: T): T
  {
    if over.Some? then over.value else base
  }

  /** `{ ...u, ...p }`. */
  function Merge(u: Usuario, p: UsuarioPatch): (r: Usuario)
    ensures p == NoFields() ==> r == u
  {
    Usuario(Pick(p.id, u.id), Pick(p.nombre, u.nombre), Pick(p.apellido, u.apellido),
            Pick(p.dni, u.dni), Pick(p.email, u.email), u.password, Pick(p.rol, u.rol),
            Pick(p.activo, u.activo), if p.foto.Some? then p.foto else u.foto,
            if p.cuotaMes.Some? then p.cuotaMes else u.cuotaMes,
            if p.cuotaAnio.Some? then p.cuotaAnio else u.cuotaAnio,
            if p.cuotaEstado.Some? then p.cuotaEstado else u.cuotaEstado,
            if p.cuotaMedio.Some? then p.cuotaMedio else u.cuotaMedio)
  }

  function NoFields(): UsuarioPatch
  {
    UsuarioPatch(None, None, None, None, None, None, None, None, None, None, None, None)
  }

  datatype Cancha = Cancha(id: Id, nombre: string, estado: string)

  datatype Reserva = Reserva(id: Id, userId: Id, canchaId: Id, fecha: string, horaInicio: string, horaFin: string)

  /** A class; `usuarios` is the roster (`Usuarios`), which the backend may leave out. */
  datatype Clase = Clase(id: Id, disciplina: string, diaSemana: string, hora: string, cupo: int,
                         usuarios: Option<seq<Id>>)

  datatype Partido = Partido(id: Id, torneo: Option<string>, rival: string, fechaHora: string,
                             estadio: Option<string>, stockEntradas: Num)

  datatype Entrada = Entrada(id: Id, userId: Id, partidoId: Id, cantidad: int)

  datatype Pago = Pago(id: Id, userId: Id, fecha: string, medio: string)

  /** The client cache: the seven collections of the bulk read. */
  datatype Cache = Cache(usuarios: seq<Usuario>, canchas: seq<Cancha>, reservas: seq<Reserva>,
                         clases: seq<Clase>, partidos: seq<Partido>, entradas: seq<Entrada>,
                         pagos: seq<Pago>)

  function EmptyCache(): (c: Cache)
    ensures c.usuarios == [] && c.canchas == [] && c.reservas == [] && c.clases == []
    ensures c.partidos == [] && c.entradas == [] && c.pagos == []
  {
    Cache([], [], [], [], [], [], [])
  }

  /** The logged-in identity, as the login answer gives it and storage keeps it. */
  datatype Identity = Identity(id: Id, nombre: string, email: string, rol: string, activo: bool)

  /** The body of `crearClase`. */
  datatype NuevaClase = NuevaClase(disciplina: string, diaSemana: string, hora: string, cupo: Num)

  /** The body of `crearPartido`. */
  datatype NuevoPartido = NuevoPartido(rival: string, fechaHora: string, stockEntradas: Num)

  /** Every request the client can send, with the fields of its body. */
  datatype Request =
    | PostLogin(email: string, password: string)
    | PostPago(mes: int, anio: int, medio: string)
    | PostReserva(canchaId: Id, fecha: string, horaInicio: string, horaFin: string)
    | PostInscribir(claseId: Id)
    | DeleteBaja(claseId: Id)
    | PostEntradas(partidoId: Id, cantidad: int)
    | PutUsuarioAdmin(usuarioId: Id, patch: UsuarioPatch)
    | DeleteUsuario(usuarioId: Id)
    | PostClase(clase: NuevaClase)
    | PostPartido(partido: NuevoPartido)
    | PutToggleCancha(canchaId: Id)
    | PutUsuario(usuarioId: Id, nombre: string, apellido: string, dni: string)

  /** How the backend answered: a 2xx with its body, a non-2xx with the `message` of its
      body if any, or no answer at all (`fetch` threw). */
  datatype Reply<T> = Ok(data: T) | Rejected(message: Option<string>) | Unreachable

  /** How an action settles: it resolves with a value or throws an error with a message. */
  datatype Outcome<T> = Done(value: T) | Threw(message: string)

  /** The message of the `TypeError` a browser throws from `fetch` when the server is unreachable. */
  const FetchFailed := "Failed to fetch"
}
