/** The admin's class page: the four-field form whose submit hands a new class to
    `crearClase`, and the listing's places badge. */
module ClasesAbm {
  import opened Text
  import opened Options
  import opened ClubTypes
  import Clases

  /** The form, as the four inputs hold it. */
  datatype ClaseForm = ClaseForm(disciplina: string, diaSemana: string, hora: string, cupo: string)

  /** The `name` attribute of each input. */
  datatype Campo = Disciplina | DiaSemana | Hora | Cupo

  function Get(f: ClaseForm, campo: Campo): string
  {
    match campo
    case Disciplina => f.disciplina
    case DiaSemana => f.diaSemana
    case Hora => f.hora
    case Cupo => f.cupo
  }

  function EmptyForm(): (f: ClaseForm)
    ensures forall campo :: Get(f, campo) == ""
  {
    ClaseForm("", "", "", "")
  }

  /** `handleChange`: `{ ...prev, [name]: value }`. */
  function WithCampo(f: ClaseForm, campo: Campo, v: string): (g: ClaseForm)
    ensures Get(g, campo) == v
    ensures forall other :: other != campo ==> Get(g, other) == Get(f, other)
  {
    match campo
    case Disciplina => f.(disciplina := v)
    case DiaSemana => f.(diaSemana := v)
    case Hora => f.(hora := v)
    case Cupo => f.(cupo := v)
  }

  /** Every input holds something. */
  predicate Filled(f: ClaseForm)
  {
    f.disciplina != "" && f.diaSemana != "" && f.hora != "" && f.cupo != ""
  }

  /** The body handed to `crearClase`: the three texts and `parseInt` of the capacity. */
  function PayloadOf(f: ClaseForm): (p: NuevaClase)
    ensures p.disciplina == f.disciplina && p.diaSemana == f.diaSemana && p.hora == f.hora
    ensures forall n: int :: f.cupo == IntToString(n) ==> p.cupo == Int(n)
  {
    forall n: int | f.cupo == IntToString(n)
      ensures ParseInt(f.cupo) == Int(n)
    {
      ParseIntRoundTrip(n);
    }
    NuevaClase(f.disciplina, f.diaSemana, f.hora, ParseInt(f.cupo))
  }

  /** Typing each field in turn, whatever the order, fills the form the submit checks. */
  lemma TypedFormIsFilled(d: string, ds: string, h: string, c: string)
    requires d != "" && ds != "" && h != "" && c != ""
    ensures Filled(WithCampo(WithCampo(WithCampo(WithCampo(EmptyForm(), Cupo, c), Hora, h), DiaSemana, ds), Disciplina, d))
    ensures WithCampo(WithCampo(WithCampo(WithCampo(EmptyForm(), Cupo, c), Hora, h), DiaSemana, ds), Disciplina, d)
              == ClaseForm(d, ds, h, c)
  {
  }

  /** The listing's badge: `cupoDisponible === 0` is red, as on the member's class cards. */
  function ListingBadge(c: Clase): (v: string)
    ensures v == Clases.BadgeVariant(c)
    ensures v == Clases.Error <==> |Clases.Inscriptos(c)| == c.cupo
  {
    if c.cupo - |Clases.Inscriptos(c)| == 0 then Clases.Error else Clases.Success
  }

  /** The form's state. */
  class ClasesAbmPage {
    var form: ClaseForm

    constructor ()
      ensures form == EmptyForm()
    {
      form := EmptyForm();
    }

    method HandleChange(campo: Campo, v: string)
      modifies this`form
      ensures form == WithCampo(old(form), campo, v)
    {
      form := WithCampo(form, campo, v);
    }

    /** `handleSubmit`: with an input empty nothing happens; otherwise the payload is handed to
        `crearClase`, whose promise is not awaited, and the form is emptied. */
    method HandleSubmit() returns (order: Option<NuevaClase>)
      modifies this`form
      ensures !old(Filled(form)) ==> order == None && form == old(form)
      ensures old(Filled(form)) ==> order == Some(PayloadOf(old(form))) && form == EmptyForm()
    {
      if !Filled(form) {
        return None;
      }
      order := Some(PayloadOf(form));
      form := EmptyForm();
    }
  }
}
