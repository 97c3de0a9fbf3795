/** The sign-up page: the DNI input that keeps at most eight digits, the checks of a sign-up
    (every field filled, email and DNI not taken) and the new member appended to the cache. */
module Register {
  import opened Options
  import opened Text
  import opened Seqs
  import opened ClubTypes
  import opened DataContext

  const CamposObligatorios := "Todos los campos son obligatorios"
  const EmailRegistrado := "Este email ya está registrado"
  const DniRegistrado := "Este DNI ya está registrado"
  const Registrado := "Usuario registrado con éxito ✅"
  const MaxDni := 8

  /** The text typed in the five inputs. */
  datatype RegistroForm = RegistroForm(nombre: string, apellido: string, dni: string, email: string,
                                       password: string)

  /** `value.replace(/\D+/g, '').slice(0, 8)`: the digits typed, the first eight of them. */
  function SanitizeDni(raw: string): (d: string)
    ensures AllDigits(d) && |d| <= MaxDni
    ensures |d| == if |Filter(raw, IsDigit)| < MaxDni then |Filter(raw, IsDigit)| else MaxDni
    ensures d == Filter(raw, IsDigit)[..|d|]
  {
    var digits := Filter(raw, IsDigit);
    if |digits| <= MaxDni then digits else digits[..MaxDni]
  }

  /** Typing into the DNI input changes nothing about text it has already cleaned. */
  lemma {:induction false} SanitizeDniIdempotent(raw: string)
    ensures SanitizeDni(SanitizeDni(raw)) == SanitizeDni(raw)
  {
    var d := SanitizeDni(raw);
    FilterAll(d, IsDigit);
  }

  predicate EmailTaken(usuarios: seq<Usuario>, email: string)
  {
    Any(usuarios, (u: Usuario) => u.email == email)
  }

  /** `String(u.dni) === String(dni)` for some member. */
  predicate DniTaken(usuarios: seq<Usuario>, dni: string)
  {
    Any(usuarios, (u: Usuario) => DniString(u.dni) == dni)
  }

  predicate Filled(f: RegistroForm)
  {
    f.nombre != "" && f.apellido != "" && f.dni != "" && f.email != "" && f.password != ""
  }

  /** The checks of `onSubmit`, in order; the first that fails gives the error. */
  function RegistroCheck(usuarios: seq<Usuario>, f: RegistroForm): (refusal: Option<string>)
    ensures !Filled(f) ==> refusal == Some(CamposObligatorios)
    ensures Filled(f) && (exists i :: 0 <= i < |usuarios| && usuarios[i].email == f.email) ==>
              refusal == Some(EmailRegistrado)
    ensures Filled(f) && (forall i :: 0 <= i < |usuarios| ==> usuarios[i].email != f.email)
              && (exists i :: 0 <= i < |usuarios| && DniString(usuarios[i].dni) == f.dni) ==>
              refusal == Some(DniRegistrado)
    ensures refusal.None? <==> Filled(f) && forall i :: 0 <= i < |usuarios| ==>
                                 usuarios[i].email != f.email && DniString(usuarios[i].dni) != f.dni
  {
    if !Filled(f) then Some(CamposObligatorios)
    else if EmailTaken(usuarios, f.email) then Some(EmailRegistrado)
    else if DniTaken(usuarios, f.dni) then Some(DniRegistrado)
    else None
  }

  /** The record `onSubmit` appends: id `Date.now()`, the typed fields, role "user", active. */
  function NuevoUsuario(now: Id, f: RegistroForm): Usuario
  {
    Usuario(now, f.nombre, f.apellido, DniText(f.dni), f.email, Some(f.password), "user", true,
            None, None, None, None, None)
  }

  /** No two members share an email. */
  predicate EmailsUnique(usuarios: seq<Usuario>)
  {
    forall i, j :: 0 <= i < j < |usuarios| ==> usuarios[i].email != usuarios[j].email
  }

  /** No two members share a DNI, compared as text. */
  predicate DnisUnique(usuarios: seq<Usuario>)
  {
    forall i, j :: 0 <= i < j < |usuarios| ==> DniString(usuarios[i].dni) != DniString(usuarios[j].dni)
  }

  /** A sign-up the checks let through keeps emails and DNIs unique. */
  lemma {:induction false} SignUpKeepsUnique(usuarios: seq<Usuario>, f: RegistroForm, now: Id)
    requires RegistroCheck(usuarios, f).None?
    ensures EmailsUnique(usuarios) ==> EmailsUnique(usuarios + [NuevoUsuario(now, f)])
    ensures DnisUnique(usuarios) ==> DnisUnique(usuarios + [NuevoUsuario(now, f)])
  {
    var next := usuarios + [NuevoUsuario(now, f)];
    assert forall i :: 0 <= i < |usuarios| ==> next[i] == usuarios[i];
    assert next[|usuarios|] == NuevoUsuario(now, f);
  }

  /** The sign-up form's state. */
  class RegisterPage {
    var form: RegistroForm
    var error: Option<string>
    var success: Option<string>

    /** The DNI input only ever holds at most eight digits. */
    ghost predicate Valid()
      reads this
    {
      AllDigits(form.dni) && |form.dni| <= MaxDni
    }

    constructor ()
      ensures form == RegistroForm("", "", "", "", "") && error == None && success == None
      ensures Valid()
    {
      form := RegistroForm("", "", "", "", "");
      error := None;
      success := None;
    }

    /** The DNI input's `onChange`. */
    method OnDniInput(raw: string)
      modifies this`form
      ensures form == old(form).(dni := SanitizeDni(raw))
      ensures Valid()
    {
      form := form.(dni := SanitizeDni(raw));
    }

    /** `onSubmit`: clear both messages; a failed check sets its error and changes nothing
        else; otherwise the new member is appended to the cache's members, nothing else in the
        cache changes, and the success message is set. */
    method OnSubmit(store: DataStore, now: Id)
      modifies this`error, this`success, store`state
      ensures var refusal := RegistroCheck(old(store.state.usuarios), form);
              if refusal.Some? then
                error == refusal && success == None && store.state == old(store.state)
              else
                error == None && success == Some(Registrado)
                && store.state == old(store.state).(usuarios := old(store.state.usuarios) + [NuevoUsuario(now, form)])
    {
      error := None;
      success := None;
      var refusal := RegistroCheck(store.state.usuarios, form);
      if refusal.Some? {
        error := refusal;
        return;
      }
      var nuevo := NuevoUsuario(now, form);
      store.SetState(store.state.(usuarios := store.state.usuarios + [nuevo]));
      success := Some(Registrado);
    }
  }
}
