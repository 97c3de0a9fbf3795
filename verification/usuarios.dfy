/** The admin's member table: activate or deactivate a member, delete one, edit one in place,
    and the guard that keeps the admin from deleting or editing their own account. */
module Usuarios {
  import opened Options
  import opened Text
  import opened Seqs
  import opened ClubTypes
  import opened DataContext

  const NoEliminarse := "No podés eliminarte a vos mismo."
  const NoEditarse := "No podés editar tu propio usuario desde acá."
  const ErrorToggle := "Error al cambiar estado del usuario"
  const ErrorEliminar := "Error al eliminar usuario"
  const ErrorActualizar := "Error al actualizar usuario"
  const Si := "Sí"
  const No := "No"

  /** The edit form: the five fields the table lets the admin change. */
  datatype EditForm = EditForm(nombre: string, apellido: string, email: string, rol: string, activo: bool)

  /** The text inputs of the edit row. */
  datatype Campo = Nombre | Apellido | Email | Rol

  /** `setForm({ ...form, [campo]: v })`: the named input takes the text, the rest stay. */
  function WithCampo(f: EditForm, campo: Campo, v: string): (g: EditForm)
    ensures g.activo == f.activo
    ensures g.nombre == (if campo == Nombre then v else f.nombre)
    ensures g.apellido == (if campo == Apellido then v else f.apellido)
    ensures g.email == (if campo == Email then v else f.email)
    ensures g.rol == (if campo == Rol then v else f.rol)
  {
    match campo
    case Nombre => f.(nombre := v)
    case Apellido => f.(apellido := v)
    case Email => f.(email := v)
    case Rol => f.(rol := v)
  }

  /** How a boolean shows in the table and in the "Activo" select. */
  function SiNo(b: bool): string
  {
    if b then Si else No
  }

  /** The select's `onChange` reads back what it shows: `value === 'Sí'`. */
  lemma SiNoReadsBack(b: bool)
    ensures (SiNo(b) == Si) == b
  {
  }

  /** `comenzarEdicion` copies the member's five fields into the form. */
  function FormOf(u: Usuario): EditForm
  {
    EditForm(u.nombre, u.apellido, u.email, u.rol, u.activo)
  }

  /** The form sent as the body of `actualizarUsuario`: it carries the five fields only. */
  function PatchOf(f: EditForm): UsuarioPatch
  {
    NoFields().(nombre := Some(f.nombre), apellido := Some(f.apellido), email := Some(f.email),
                rol := Some(f.rol), activo := Some(f.activo))
  }

  /** Spreading the sent form over a member overwrites the five form fields and keeps every
      other field of the record. */
  lemma MergeForm(u: Usuario, f: EditForm)
    ensures Merge(u, PatchOf(f)) == u.(nombre := f.nombre, apellido := f.apellido, email := f.email,
                                        rol := f.rol, activo := f.activo)
  {
  }

  /** Saving a form that was copied from a member and not touched asks for no change. */
  lemma UntouchedFormChangesNothing(u: Usuario)
    ensures Merge(u, PatchOf(FormOf(u))) == u
  {
    MergeForm(u, FormOf(u));
  }

  /** `state.usuarios.find(u => u.id === id)`. */
  function Target(usuarios: seq<Usuario>, id: Id): (t: Option<Usuario>)
    ensures t.None? <==> forall i :: 0 <= i < |usuarios| ==> usuarios[i].id != id
    ensures t.Some? ==> t.value in usuarios && t.value.id == id
  {
    Find(usuarios, (u: Usuario) => u.id == id)
  }

  /** `target?.email === user.email`: the member to delete is the admin themself. */
  predicate SelfTarget(usuarios: seq<Usuario>, id: Id, email: string)
  {
    var t := Target(usuarios, id);
    t.Some? && t.value.email == email
  }

  predicate IdsUnique(usuarios: seq<Usuario>)
  {
    forall i, j :: 0 <= i < j < |usuarios| ==> usuarios[i].id != usuarios[j].id
  }

  /** The page's error for an admin action: the guard's message, nothing on a 2xx, the body's
      message (or the action's own) on a non-2xx, the connection message when `fetch` threw. */
  function AdminError<T>(user: Identity, res: Reply<T>, fallback: string): (e: Option<string>)
    ensures e.None? <==> user.rol == "admin" && res.Ok?
    ensures user.rol != "admin" ==> e == Some(RequiereAdmin)
    ensures user.rol == "admin" && res.Unreachable? ==> e == Some(ErrorConexionAdmin)
    ensures user.rol == "admin" && res.Rejected? && res.message.Some? && res.message.value != "" ==>
              e == res.message
  {
    if Guard(Some(user), true).Some? then Guard(Some(user), true)
    else match res
      case Ok(_) => None
      case Rejected(m) => Some(OrDefault(m, fallback))
      case Unreachable => Some(ErrorConexionAdmin)
  }

  /** `err.message || fallback`. */
  function ErrorText<T>(r: Outcome<T>, fallback: string): Option<string>
  {
    if r.Done? then None else Some(OrDefault(Some(r.message), fallback))
  }

  /** One row of the table outside edit mode. */
  datatype Fila = Fila(nombre: string, email: string, rol: string, activo: string,
                       toggleCaption: string, editarEliminar: bool)

  /** The row of `u`: its name, email, role and "Sí"/"No"; the toggle on every row, captioned
      by what it will do; edit and delete only on rows of other accounts. */
  function FilaFor(u: Usuario, user: Identity): (f: Fila)
    ensures f.activo == SiNo(u.activo)
    ensures f.toggleCaption == (if u.activo then "Desactivar" else "Activar")
    ensures f.editarEliminar <==> u.email != user.email
  {
    Fila(u.nombre + " " + u.apellido, u.email, u.rol, SiNo(u.activo),
         if u.activo then "Desactivar" else "Activar", u.email != user.email)
  }

  /** With unique ids, a row offers edit and delete exactly when the handlers' own self checks
      would let them through. */
  lemma RowActionsMatchSelfChecks(usuarios: seq<Usuario>, k: int, user: Identity)
    requires IdsUnique(usuarios) && 0 <= k < |usuarios|
    ensures FilaFor(usuarios[k], user).editarEliminar <==> !SelfTarget(usuarios, usuarios[k].id, user.email)
  {
    var t := Target(usuarios, usuarios[k].id);
    var j :| 0 <= j < |usuarios| && usuarios[j] == t.value;
    assert j == k;
  }

  /** The table's state: the row being edited, its form, the busy flag and the error. */
  class UsuariosPage {
    var editando: Option<Id>
    var form: EditForm
    var loading: bool
    var error: Option<string>

    constructor ()
      ensures editando == None && form == EditForm("", "", "", "", true)
      ensures !loading && error == None
    {
      editando := None;
      form := EditForm("", "", "", "", true);
      loading := false;
      error := None;
    }

    /** `toggleActivo`: the busy flag is down again once the action settles, and the error is
        the one the action threw, if any. */
    method ToggleActivo(store: DataStore, user: Identity, id: Id, res: Reply<Usuario>, refetch: Reply<Cache>)
      returns (sent: Option<Request>)
      modifies this`loading, this`error, store
      ensures sent.Some? <==> user.rol == "admin" && ToggleActivoPatch(old(store.state.usuarios), id).Some?
      ensures sent.Some? ==> sent.value == PutUsuarioAdmin(id, ToggleActivoPatch(old(store.state.usuarios), id).value)
      ensures user.rol == "admin" && ToggleActivoPatch(old(store.state.usuarios), id).None? ==>
                error == Some(UsuarioNoEncontrado)
      ensures sent.Some? || user.rol != "admin" ==> error == AdminError(user, res, ErrorActualizar)
      ensures error.None? ==> store.Settled(refetch)
      ensures error.Some? ==> unchanged(store)
      ensures !loading
    {
      error := None;
      loading := true;
      var r;
      sent, r := store.ToggleActivo(Some(user), id, res, refetch);
      error := ErrorText(r, ErrorToggle);
      loading := false;
    }

    /** `eliminarUsuario`: deleting oneself is refused with an alert; an unconfirmed delete does
        nothing; otherwise the request goes out, and the busy flag is lowered only when the
        action throws: after a successful delete it stays up. */
    method EliminarUsuario(store: DataStore, user: Identity, id: Id, confirmed: bool, res: Reply<()>,
                           refetch: Reply<Cache>)
      returns (alert: Option<string>, sent: Option<Request>)
      modifies this`loading, this`error, store
      ensures SelfTarget(old(store.state.usuarios), id, user.email) ==>
                alert == Some(NoEliminarse) && sent == None && unchanged(this) && unchanged(store)
      ensures !SelfTarget(old(store.state.usuarios), id, user.email) && !confirmed ==>
                alert == None && sent == None && unchanged(this) && unchanged(store)
      ensures !SelfTarget(old(store.state.usuarios), id, user.email) && confirmed ==>
                alert == None
                && sent == (if user.rol == "admin" then Some(DeleteUsuario(id)) else None)
                && error == AdminError(user, res, ErrorEliminar)
                && (error.None? ==> loading && store.Settled(refetch))
                && (error.Some? ==> !loading && unchanged(store))
    {
      var target := Target(store.state.usuarios, id);
      if target.Some? && target.value.email == user.email {
        return Some(NoEliminarse), None;
      }
      alert := None;
      if !confirmed {
        return alert, None;
      }
      error := None;
      loading := true;
      var r;
      sent, r := store.EliminarUsuario(Some(user), id, res, refetch);
      if r.Threw? {
        error := ErrorText(r, ErrorEliminar);
        loading := false;
      }
    }

    /** `comenzarEdicion`: editing oneself is refused with an alert; otherwise the row enters
        edit mode with the member's fields in the form. */
    method ComenzarEdicion(u: Usuario, user: Identity) returns (alert: Option<string>)
      modifies this`editando, this`form
      ensures u.email == user.email ==>
                alert == Some(NoEditarse) && editando == old(editando) && form == old(form)
      ensures u.email != user.email ==> alert == None && editando == Some(u.id) && form == FormOf(u)
    {
      if u.email == user.email {
        return Some(NoEditarse);
      }
      alert := None;
      editando := Some(u.id);
      form := FormOf(u);
    }

    /** A text input of the edit row. */
    method OnInput(campo: Campo, v: string)
      modifies this`form
      ensures form == WithCampo(old(form), campo, v)
    {
      form := WithCampo(form, campo, v);
    }

    /** The "Activo" select: `activo: value === 'Sí'`. */
    method OnActivoSelect(choice: string)
      modifies this`form
      ensures form == old(form).(activo := choice == Si)
    {
      form := form.(activo := choice == Si);
    }

    /** "Cancelar". */
    method CancelarEdicion()
      modifies this`editando
      ensures editando == None
    {
      editando := None;
    }

    /** `guardarEdicion`: the form goes out as the update; edit mode ends only when the update
        succeeds; the busy flag is down again on both paths. */
    method GuardarEdicion(store: DataStore, user: Identity, id: Id, res: Reply<Usuario>, refetch: Reply<Cache>)
      returns (sent: Option<Request>)
      modifies this`loading, this`error, this`editando, store
      ensures sent == (if user.rol == "admin" then Some(PutUsuarioAdmin(id, PatchOf(form))) else None)
      ensures error == AdminError(user, res, ErrorActualizar)
      ensures error.None? ==> editando == None && store.Settled(refetch)
      ensures error.Some? ==> editando == old(editando) && unchanged(store)
      ensures !loading
    {
      error := None;
      loading := true;
      var r;
      sent, r := store.ActualizarUsuario(Some(user), id, PatchOf(form), res, refetch);
      if r.Done? {
        editando := None;
      } else {
        error := ErrorText(r, ErrorActualizar);
      }
      loading := false;
    }
  }
}
