/** The class listing: each class's roster and places left, the badge and the button a member
    sees on its card, and the enrol and drop handlers. The admin's class listing shows the
    same places left and badge and uses these definitions. */
module Clases {
  import opened Options
  import opened ClubTypes
  import Perfil

  const InscripcionExitosa := "Inscripción exitosa ✅"
  const BajaRealizada := "Baja realizada correctamente ❌"
  const CupoCompleto := "Cupo completo"
  const Inscribirme := "Inscribirme"
  const Success := "success"
  const Error := "error"

  /** `c.Usuarios || []`: a missing roster reads as an empty one. */
  function Inscriptos(c: Clase): seq<Id>
  {
    if c.usuarios.Some? then c.usuarios.value else []
  }

  /** `c.cupo - listaInscriptos.length`. */
  function CupoDisponible(c: Clase): int
  {
    c.cupo - |Inscriptos(c)|
  }

  /** `isCompleto`: exactly no places left (`=== 0`). */
  predicate IsCompleto(c: Clase)
  {
    CupoDisponible(c) == 0
  }

  /** `estoyInscripto`: the member's id is on the roster. */
  predicate EstoyInscripto(c: Clase, userId: Id)
  {
    userId in Inscriptos(c)
  }

  /** Being on a card's roster is what the profile and the activity list count as taking the
      class. */
  lemma EstoyInscriptoIsEnRoster(c: Clase, userId: Id)
    ensures EstoyInscripto(c, userId) <==> Perfil.EnRoster(c, userId)
  {
  }

  /** The variant of the places badge: red exactly when the roster fills the capacity. */
  function BadgeVariant(c: Clase): (v: string)
    ensures v == Success || v == Error
    ensures v == Error <==> |Inscriptos(c)| == c.cupo
  {
    if IsCompleto(c) then Error else Success
  }

  /** The card's button: enrol (disabled and captioned "Cupo completo" when the class is
      full) for a member not on the roster, drop for one who is. */
  datatype ClaseButton = InscribirmeButton(disabled: bool, caption: string) | DarmeDeBaja

  function ButtonFor(c: Clase, userId: Id): (b: ClaseButton)
    ensures b.DarmeDeBaja? <==> EstoyInscripto(c, userId)
    ensures b.InscribirmeButton? ==> (b.disabled <==> IsCompleto(c))
    ensures b.InscribirmeButton? ==> b.caption == (if b.disabled then CupoCompleto else Inscribirme)
  {
    if EstoyInscripto(c, userId) then DarmeDeBaja
    else InscribirmeButton(IsCompleto(c), if IsCompleto(c) then CupoCompleto else Inscribirme)
  }

  /** An enabled enrol button is shown only to a member not on the roster of a class whose
      roster does not fill its capacity, and the badge then agrees that places are left. */
  lemma EnabledButtonMeansRoom(c: Clase, userId: Id)
    ensures ButtonFor(c, userId) == InscribirmeButton(false, Inscribirme) <==>
              !EstoyInscripto(c, userId) && |Inscriptos(c)| != c.cupo
    ensures ButtonFor(c, userId) == InscribirmeButton(false, Inscribirme) ==> BadgeVariant(c) == Success
  {
  }

  /** The full test is `=== 0`: a class whose roster holds more members than its capacity
      shows a green badge and an enabled enrol button to a member not on it. */
  lemma OverfullStaysOpen(c: Clase, userId: Id)
    requires |Inscriptos(c)| > c.cupo && !EstoyInscripto(c, userId)
    ensures CupoDisponible(c) < 0
    ensures BadgeVariant(c) == Success
    ensures ButtonFor(c, userId) == InscribirmeButton(false, Inscribirme)
  {
  }

  /** The message area of the listing. */
  class ClasesPage {
    var msg: string
    var msgType: string

    constructor ()
      ensures msg == "" && msgType == Success
    {
      msg := "";
      msgType := Success;
    }

    /** `handleInscribir`: the class id is handed to `inscribirClase`, whose promise is not
        awaited, so the success message shows whatever the request's fate. */
    method HandleInscribir(claseId: Id) returns (order: Id)
      modifies this
      ensures order == claseId
      ensures msg == InscripcionExitosa && msgType == Success
    {
      order := claseId;
      msg, msgType := InscripcionExitosa, Success;
    }

    /** `handleBaja`: the same, with `bajaClase` and its own message. */
    method HandleBaja(claseId: Id) returns (order: Id)
      modifies this
      ensures order == claseId
      ensures msg == BajaRealizada && msgType == Success
    {
      order := claseId;
      msg, msgType := BajaRealizada, Success;
    }
  }
}
