/** The client cache (`DataProvider`): the seven collections, the `loading` flag and the
    `error` message, the bulk refetch, and the actions that guard on the session before
    sending their one request. The session's identity and every backend answer are
    parameters; `sent` says which request, if any, an action put on the wire. */
module DataContext {
  import opened Options
  import opened Text
  import opened Seqs
  import opened ClubTypes

  const NoAutenticado := "No autenticado"
  const RequiereAdmin := "Requiere rol de admin"
  const UsuarioNoEncontrado := "Usuario no encontrado"
  const LoadErrorPrefix := "Error al cargar datos: "
  const ErrorDesconocido := "Error desconocido"
  const ErrorConexionInit := "Error de conexión. Verifica que el servidor backend esté corriendo en http://localhost:3000"
  const ErrorConexionAdmin := "Error de conexión. Verifica que el servidor esté corriendo."

  /** The check every action makes before its request: a session must exist and, for the
      admin actions, its role must be "admin". `None` lets the action go on. */
  function Guard(user: Option<Identity>, adminOnly: bool): (refusal: Option<string>)
    ensures refusal.None? <==> user.Some? && (adminOnly ==> user.value.rol == "admin")
    ensures user.None? ==> refusal == Some(NoAutenticado)
    ensures user.Some? && adminOnly && user.value.rol != "admin" ==> refusal == Some(RequiereAdmin)
  {
    if user.None? then Some(NoAutenticado)
    else if adminOnly && user.value.rol != "admin" then Some(RequiereAdmin)
    else None
  }

  /** An admin is also a member: whatever passes the admin guard passes the member guard,
      and a refusal of the member guard is repeated word for word by the admin guard. */
  lemma AdminGuardStricter(user: Option<Identity>)
    ensures Guard(user, true).None? ==> Guard(user, false).None?
    ensures Guard(user, false).Some? ==> Guard(user, true) == Guard(user, false)
  {
  }

  /** The cache a bulk read leaves: exactly the answer, or seven empty collections. */
  function Fetched(res: Reply<Cache>): (c: Cache)
    ensures res.Ok? ==> c == res.data
    ensures !res.Ok? ==> c == EmptyCache()
  {
    if res.Ok? then res.data else EmptyCache()
  }

  /** The `error` a bulk read leaves; for a non-2xx, `Rejected` carries the body's `error` field. */
  function FetchError(res: Reply<Cache>): (e: Option<string>)
    ensures e.None? <==> res.Ok?
    ensures res.Rejected? ==> e == Some(LoadErrorPrefix + OrDefault(res.message, ErrorDesconocido))
    ensures res.Unreachable? ==> e == Some(ErrorConexionInit)
  {
    match res
    case Ok(_) => None
    case Rejected(m) => Some(LoadErrorPrefix + OrDefault(m, ErrorDesconocido))
    case Unreachable => Some(ErrorConexionInit)
  }

  /** The patch `toggleActivo` sends: `activo` negated for the first cached member with the
      id, or nothing when no cached member has it. */
  function ToggleActivoPatch(usuarios: seq<Usuario>, id: Id): (p: Option<UsuarioPatch>)
    ensures p.None? <==> forall i :: 0 <= i < |usuarios| ==> usuarios[i].id != id
    ensures p.Some? ==> exists i :: 0 <= i < |usuarios| && usuarios[i].id == id
                                    && (forall j :: 0 <= j < i ==> usuarios[j].id != id)
                                    && p.value == NoFields().(activo := Some(!usuarios[i].activo))
  {
    match Find(usuarios, (u: Usuario) => u.id == id)
    case None => None
    case Some(u) => Some(NoFields().(activo := Some(!u.activo)))
  }

  class DataStore {
    var state: Cache
    var loading: bool
    var error: Option<string>

    /** The cache once the last bulk read settled with `res`. */
    ghost predicate Settled(res: Reply<Cache>)
      reads this
    {
      state == Fetched(res) && error == FetchError(res) && !loading
    }

    /** Mounting: seven empty collections, loading, no error. */
    constructor ()
      ensures state == EmptyCache() && loading && error == None
    {
      state := EmptyCache();
      loading := true;
      error := None;
    }

    /** `setState(next)`: the pages that build a record themselves overwrite the cache. */
    method SetState(next: Cache)
      modifies this`state
      ensures state == next
    {
      state := next;
    }

    /** `fetchInitialData`: clear the error, replace the whole cache with the answer (or
        empty it and set the error), and stop loading on either path. */
    method FetchInitialData(res: Reply<Cache>)
      modifies this`state, this`loading, this`error
      ensures Settled(res)
    {
      error := None;
      match res {
        case Ok(data) =>
          state := data;
        case Rejected(m) =>
          error := Some(LoadErrorPrefix + OrDefault(m, ErrorDesconocido));
          state := EmptyCache();
        case Unreachable =>
          error := Some(ErrorConexionInit);
          state := EmptyCache();
      }
      loading := false;
    }

    /** `pagarCuota`: a non-2xx throws a fixed message (the body is not read); a success refetches. */
    method PagarCuota(user: Option<Identity>, mes: int, anio: int, medio: string,
                      res: Reply<()>, refetch: Reply<Cache>)
      returns (sent: Option<Request>, r: Outcome<()>)
      modifies this
      ensures Guard(user, false).Some? ==> sent == None && r == Threw(Guard(user, false).value)
      ensures Guard(user, false).None? ==> sent == Some(PostPago(mes, anio, medio))
      ensures Guard(user, false).None? && res.Ok? ==> r == Done(()) && Settled(refetch)
      ensures Guard(user, false).None? && res.Rejected? ==> r == Threw("Error al pagar cuota")
      ensures Guard(user, false).None? && res.Unreachable? ==> r == Threw(FetchFailed)
      ensures !(Guard(user, false).None? && res.Ok?) ==> unchanged(this)
    {
      var refusal := Guard(user, false);
      if refusal.Some? {
        return None, Threw(refusal.value);
      }
      sent := Some(PostPago(mes, anio, medio));
      match res {
        case Ok(_) =>
          FetchInitialData(refetch);
          r := Done(());
        case Rejected(_) =>
          r := Threw("Error al pagar cuota");
        case Unreachable =>
          r := Threw(FetchFailed);
      }
    }

    /** `reservarCancha`: a success appends exactly the returned reservation and touches
        nothing else; a non-2xx throws the server's message or "Error al reservar". */
    method ReservarCancha(user: Option<Identity>, canchaId: Id, fecha: string, horaInicio: string,
                          horaFin: string, res: Reply<Reserva>)
      returns (sent: Option<Request>, r: Outcome<()>)
      modifies this`state
      ensures Guard(user, false).Some? ==> sent == None && r == Threw(Guard(user, false).value)
      ensures Guard(user, false).None? ==> sent == Some(PostReserva(canchaId, fecha, horaInicio, horaFin))
      ensures Guard(user, false).None? && res.Ok? ==>
                r == Done(()) && state == old(state).(reservas := old(state).reservas + [res.data])
      ensures Guard(user, false).None? && res.Rejected? ==> r == Threw(OrDefault(res.message, "Error al reservar"))
      ensures Guard(user, false).None? && res.Unreachable? ==> r == Threw(FetchFailed)
      ensures !(Guard(user, false).None? && res.Ok?) ==> state == old(state)
    {
      var refusal := Guard(user, false);
      if refusal.Some? {
        return None, Threw(refusal.value);
      }
      sent := Some(PostReserva(canchaId, fecha, horaInicio, horaFin));
      match res {
        case Ok(data) =>
          state := state.(reservas := state.reservas + [data]);
          r := Done(());
        case Rejected(m) =>
          r := Threw(OrDefault(m, "Error al reservar"));
        case Unreachable =>
          r := Threw(FetchFailed);
      }
    }

    /** The shape shared by `inscribirClase`, `bajaClase` and `comprarEntradas`: the member
        guard, one request, the server's message or `fallback` on a non-2xx, a refetch on success. */
    method MemberCall<T>(user: Option<Identity>, req: Request, res: Reply<T>, fallback: string,
                         refetch: Reply<Cache>)
      returns (sent: Option<Request>, r: Outcome<()>)
      modifies this
      ensures Guard(user, false).Some? ==> sent == None && r == Threw(Guard(user, false).value)
      ensures Guard(user, false).None? ==> sent == Some(req)
      ensures Guard(user, false).None? && res.Ok? ==> r == Done(()) && Settled(refetch)
      ensures Guard(user, false).None? && res.Rejected? ==> r == Threw(OrDefault(res.message, fallback))
      ensures Guard(user, false).None? && res.Unreachable? ==> r == Threw(FetchFailed)
      ensures !(Guard(user, false).None? && res.Ok?) ==> unchanged(this)
    {
      var refusal := Guard(user, false);
      if refusal.Some? {
        return None, Threw(refusal.value);
      }
      sent := Some(req);
      match res {
        case Ok(_) =>
          FetchInitialData(refetch);
          r := Done(());
        case Rejected(m) =>
          r := Threw(OrDefault(m, fallback));
        case Unreachable =>
          r := Threw(FetchFailed);
      }
    }

    method InscribirClase(user: Option<Identity>, claseId: Id, res: Reply<()>, refetch: Reply<Cache>)
      returns (sent: Option<Request>, r: Outcome<()>)
      modifies this
      ensures Guard(user, false).Some? ==> sent == None && r == Threw(Guard(user, false).value)
      ensures Guard(user, false).None? ==> sent == Some(PostInscribir(claseId))
      ensures Guard(user, false).None? && res.Ok? ==> r == Done(()) && Settled(refetch)
      ensures Guard(user, false).None? && res.Rejected? ==> r == Threw(OrDefault(res.message, "Error al inscribir"))
      ensures Guard(user, false).None? && res.Unreachable? ==> r == Threw(FetchFailed)
      ensures !(Guard(user, false).None? && res.Ok?) ==> unchanged(this)
    {
      sent, r := MemberCall(user, PostInscribir(claseId), res, "Error al inscribir", refetch);
    }

    method BajaClase(user: Option<Identity>, claseId: Id, res: Reply<()>, refetch: Reply<Cache>)
      returns (sent: Option<Request>, r: Outcome<()>)
      modifies this
      ensures Guard(user, false).Some? ==> sent == None && r == Threw(Guard(user, false).value)
      ensures Guard(user, false).None? ==> sent == Some(DeleteBaja(claseId))
      ensures Guard(user, false).None? && res.Ok? ==> r == Done(()) && Settled(refetch)
      ensures Guard(user, false).None? && res.Rejected? ==> r == Threw(OrDefault(res.message, "Error al dar de baja"))
      ensures Guard(user, false).None? && res.Unreachable? ==> r == Threw(FetchFailed)
      ensures !(Guard(user, false).None? && res.Ok?) ==> unchanged(this)
    {
      sent, r := MemberCall(user, DeleteBaja(claseId), res, "Error al dar de baja", refetch);
    }

    method ComprarEntradas(user: Option<Identity>, partidoId: Id, cantidad: int, res: Reply<Entrada>,
                           refetch: Reply<Cache>)
      returns (sent: Option<Request>, r: Outcome<()>)
      modifies this
      ensures Guard(user, false).Some? ==> sent == None && r == Threw(Guard(user, false).value)
      ensures Guard(user, false).None? ==> sent == Some(PostEntradas(partidoId, cantidad))
      ensures Guard(user, false).None? && res.Ok? ==> r == Done(()) && Settled(refetch)
      ensures Guard(user, false).None? && res.Rejected? ==> r == Threw(OrDefault(res.message, "Error compra entradas"))
      ensures Guard(user, false).None? && res.Unreachable? ==> r == Threw(FetchFailed)
      ensures !(Guard(user, false).None? && res.Ok?) ==> unchanged(this)
    {
      sent, r := MemberCall(user, PostEntradas(partidoId, cantidad), res, "Error compra entradas", refetch);
    }

    /** The shape shared by the admin actions: both guards, one request, the body's message or
        `fallback` on a non-2xx, the connection message when `fetch` threw, and on success a
        refetch and the returned body. */
    method AdminCall<T>(user: Option<Identity>, req: Request, res: Reply<T>, fallback: string,
                        refetch: Reply<Cache>)
      returns (sent: Option<Request>, r: Outcome<T>)
      modifies this
      ensures Guard(user, true).Some? ==> sent == None && r == Threw(Guard(user, true).value)
      ensures Guard(user, true).None? ==> sent == Some(req)
      ensures Guard(user, true).None? && res.Ok? ==> r == Done(res.data) && Settled(refetch)
      ensures Guard(user, true).None? && res.Rejected? ==> r == Threw(OrDefault(res.message, fallback))
      ensures Guard(user, true).None? && res.Unreachable? ==> r == Threw(ErrorConexionAdmin)
      ensures !(Guard(user, true).None? && res.Ok?) ==> unchanged(this)
    {
      var refusal := Guard(user, true);
      if refusal.Some? {
        return None, Threw(refusal.value);
      }
      sent := Some(req);
      match res {
        case Ok(data) =>
          FetchInitialData(refetch);
          r := Done(data);
        case Rejected(m) =>
          r := Threw(OrDefault(m, fallback));
        case Unreachable =>
          r := Threw(ErrorConexionAdmin);
      }
    }

    method ActualizarUsuario(user: Option<Identity>, id: Id, patch: UsuarioPatch, res: Reply<Usuario>,
                             refetch: Reply<Cache>)
      returns (sent: Option<Request>, r: Outcome<Usuario>)
      modifies this
      ensures Guard(user, true).Some? ==> sent == None && r == Threw(Guard(user, true).value)
      ensures Guard(user, true).None? ==> sent == Some(PutUsuarioAdmin(id, patch))
      ensures Guard(user, true).None? && res.Ok? ==> r == Done(res.data) && Settled(refetch)
      ensures Guard(user, true).None? && res.Rejected? ==> r == Threw(OrDefault(res.message, "Error al actualizar usuario"))
      ensures Guard(user, true).None? && res.Unreachable? ==> r == Threw(ErrorConexionAdmin)
      ensures !(Guard(user, true).None? && res.Ok?) ==> unchanged(this)
    {
      sent, r := AdminCall(user, PutUsuarioAdmin(id, patch), res, "Error al actualizar usuario", refetch);
    }

    method EliminarUsuario(user: Option<Identity>, id: Id, res: Reply<()>, refetch: Reply<Cache>)
      returns (sent: Option<Request>, r: Outcome<()>)
      modifies this
      ensures Guard(user, true).Some? ==> sent == None && r == Threw(Guard(user, true).value)
      ensures Guard(user, true).None? ==> sent == Some(DeleteUsuario(id))
      ensures Guard(user, true).None? && res.Ok? ==> r == Done(res.data) && Settled(refetch)
      ensures Guard(user, true).None? && res.Rejected? ==> r == Threw(OrDefault(res.message, "Error al eliminar usuario"))
      ensures Guard(user, true).None? && res.Unreachable? ==> r == Threw(ErrorConexionAdmin)
      ensures !(Guard(user, true).None? && res.Ok?) ==> unchanged(this)
    {
      sent, r := AdminCall<()>(user, DeleteUsuario(id), res, "Error al eliminar usuario", refetch);
    }

    /** `admin.toggleActivo`: both guards, then the cached member must exist, then an update
        whose only field is the negated `activo`. */
    method ToggleActivo(user: Option<Identity>, id: Id, res: Reply<Usuario>, refetch: Reply<Cache>)
      returns (sent: Option<Request>, r: Outcome<Usuario>)
      modifies this
      ensures Guard(user, true).Some? ==> sent == None && r == Threw(Guard(user, true).value)
      ensures Guard(user, true).None? && ToggleActivoPatch(old(state.usuarios), id).None? ==>
                sent == None && r == Threw(UsuarioNoEncontrado)
      ensures Guard(user, true).None? && ToggleActivoPatch(old(state.usuarios), id).Some? ==>
                sent == Some(PutUsuarioAdmin(id, ToggleActivoPatch(old(state.usuarios), id).value))
      ensures sent.Some? && res.Ok? ==> r == Done(res.data) && Settled(refetch)
      ensures sent.Some? && res.Rejected? ==> r == Threw(OrDefault(res.message, "Error al actualizar usuario"))
      ensures sent.Some? && res.Unreachable? ==> r == Threw(ErrorConexionAdmin)
      ensures !(sent.Some? && res.Ok?) ==> unchanged(this)
    {
      var refusal := Guard(user, true);
      if refusal.Some? {
        return None, Threw(refusal.value);
      }
      var patch := ToggleActivoPatch(state.usuarios, id);
      if patch.None? {
        return None, Threw(UsuarioNoEncontrado);
      }
      sent, r := ActualizarUsuario(user, id, patch.value, res, refetch);
    }

    method CrearClase(user: Option<Identity>, payload: NuevaClase, res: Reply<Clase>, refetch: Reply<Cache>)
      returns (sent: Option<Request>, r: Outcome<Clase>)
      modifies this
      ensures Guard(user, true).Some? ==> sent == None && r == Threw(Guard(user, true).value)
      ensures Guard(user, true).None? ==> sent == Some(PostClase(payload))
      ensures Guard(user, true).None? && res.Ok? ==> r == Done(res.data) && Settled(refetch)
      ensures Guard(user, true).None? && res.Rejected? ==> r == Threw(OrDefault(res.message, "Error al crear clase"))
      ensures Guard(user, true).None? && res.Unreachable? ==> r == Threw(ErrorConexionAdmin)
      ensures !(Guard(user, true).None? && res.Ok?) ==> unchanged(this)
    {
      sent, r := AdminCall(user, PostClase(payload), res, "Error al crear clase", refetch);
    }

    method CrearPartido(user: Option<Identity>, payload: NuevoPartido, res: Reply<Partido>, refetch: Reply<Cache>)
      returns (sent: Option<Request>, r: Outcome<Partido>)
      modifies this
      ensures Guard(user, true).Some? ==> sent == None && r == Threw(Guard(user, true).value)
      ensures Guard(user, true).None? ==> sent == Some(PostPartido(payload))
      ensures Guard(user, true).None? && res.Ok? ==> r == Done(res.data) && Settled(refetch)
      ensures Guard(user, true).None? && res.Rejected? ==> r == Threw(OrDefault(res.message, "Error al crear partido"))
      ensures Guard(user, true).None? && res.Unreachable? ==> r == Threw(ErrorConexionAdmin)
      ensures !(Guard(user, true).None? && res.Ok?) ==> unchanged(this)
    {
      sent, r := AdminCall(user, PostPartido(payload), res, "Error al crear partido", refetch);
    }

    /** `admin.toggleEstadoCancha`: no guard at all; the request always goes out, a success
        refetches, a non-2xx is silently ignored, and a `fetch` failure propagates. */
    method ToggleEstadoCancha(id: Id, res: Reply<Cancha>, refetch: Reply<Cache>)
      returns (sent: Option<Request>, r: Outcome<()>)
      modifies this
      ensures sent == Some(PutToggleCancha(id))
      ensures res.Ok? ==> r == Done(()) && Settled(refetch)
      ensures res.Rejected? ==> r == Done(()) && unchanged(this)
      ensures res.Unreachable? ==> r == Threw(FetchFailed) && unchanged(this)
    {
      sent := Some(PutToggleCancha(id));
      match res {
        case Ok(_) =>
          FetchInitialData(refetch);
          r := Done(());
        case Rejected(_) =>
          r := Done(());
        case Unreachable =>
          r := Threw(FetchFailed);
      }
    }
  }
}
