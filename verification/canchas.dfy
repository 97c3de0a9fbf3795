/** The court booking page: the sixteen one-hour slots from 08:00 to midnight, the default
    slot, the bookings of the chosen court and day, which slots they take, and the checks a
    booking passes before it is sent. */
module Canchas {
  import opened Options
  import opened Text
  import opened Seqs
  import opened ClubTypes
  import opened DataContext

  const NoDisponible := "Esta cancha no está disponible ❌"
  const HorarioInvalido := "Seleccioná un horario válido ❌"
  const Ocupado := "Ese horario ya está ocupado ⚠️"
  const Confirmada := "Reserva confirmada ✅"
  const ErrorReservar := "Error al reservar"
  const ReservadoSuffix := " (Reservado)"

  /** One entry of `HOUR_SLOTS`. */
  datatype Slot = Slot(value: string, caption: string, start: string, end: string)

  /** An option of the slot selector. */
  datatype SlotOption = SlotOption(value: string, caption: string, disabled: bool)

  /** `"HH:00"` for an hour of the day: the hour's two digits, then ":00". */
  function HourText(h: int): (t: string)
    requires 0 <= h < 100
    ensures |t| == 5 && t[..2] == TwoDigits(h) && t[2..] == ":00"
  {
    TwoDigits(h) + ":00"
  }

  /** `HourText` is `String(h).padStart(2, "0")` followed by ":00". */
  lemma HourTextIsPadded(h: int)
    requires 0 <= h < 100
    ensures HourText(h) == Pad2(h) + ":00"
  {
    Pad2Closed(h);
  }

  /** The slot starting at hour `h`; it ends at `(h + 1) % 24`. */
  function SlotFor(h: int): Slot
    requires 0 <= h < 100
  {
    var start := HourText(h);
    var end := HourText((h + 1) % 24);
    Slot(start + "-" + end, start + " - " + end, start, end)
  }

  /** A slot's value and caption both begin with its start hour's two digits. */
  lemma SlotForShape(h: int)
    requires 0 <= h < 100
    ensures SlotFor(h).start == HourText(h) && SlotFor(h).end == HourText((h + 1) % 24)
    ensures |SlotFor(h).value| > 2 && |SlotFor(h).caption| > 2
    ensures SlotFor(h).value[..2] == TwoDigits(h) && SlotFor(h).caption[..2] == TwoDigits(h)
  {
    var start := HourText(h);
    var end := HourText((h + 1) % 24);
    assert (start + "-" + end)[..2] == start[..2];
    assert (start + " - " + end)[..2] == start[..2];
  }

  /** `HOUR_SLOTS`: sixteen slots, the i-th starting at hour 8 + i. */
  predicate IsHourTable(slots: seq<Slot>)
  {
    |slots| == 16 && forall i :: 0 <= i < 16 ==> slots[i] == SlotFor(8 + i)
  }

  /** The loop that builds `HOUR_SLOTS`, pushing one slot per hour from 8 to 23. Each hour's
      text is `HourText`, which `HourTextIsPadded` shows to be `String(h).padStart(2, "0")`
      followed by ":00". */
  method BuildHourSlots() returns (slots: seq<Slot>)
    ensures IsHourTable(slots)
  {
    slots := [];
    var h := 8;
    while h <= 23
      invariant 8 <= h <= 24
      invariant |slots| == h - 8
      invariant forall i :: 0 <= i < |slots| ==> slots[i] == SlotFor(8 + i)
    {
      var start := HourText(h);
      var end := HourText((h + 1) % 24);
      slots := slots + [Slot(start + "-" + end, start + " - " + end, start, end)];
      h := h + 1;
    }
  }

  /** In `HOUR_SLOTS` the i-th slot starts at hour 8 + i, so in increasing order, and ends one
      hour later modulo 24; its value is "start-end" and its label "start - end". */
  lemma HourTableShape(slots: seq<Slot>, i: int)
    requires IsHourTable(slots) && 0 <= i < 16
    ensures DigitsValue(slots[i].start[..2]) == 8 + i && slots[i].start[2..] == ":00"
    ensures DigitsValue(slots[i].end[..2]) == (9 + i) % 24 && slots[i].end[2..] == ":00"
    ensures slots[i].value == slots[i].start + "-" + slots[i].end
    ensures slots[i].caption == slots[i].start + " - " + slots[i].end
  {
    assert slots[i] == SlotFor(8 + i);
  }

  /** The last slot runs from 23:00 to 00:00. */
  lemma LastSlotWraps(slots: seq<Slot>)
    requires IsHourTable(slots)
    ensures slots[15].start == "23:00" && slots[15].end == "00:00"
  {
    assert slots[15] == SlotFor(23);
  }

  /** No two slots share a value or a start: a value names one slot. */
  predicate DistinctSlots(slots: seq<Slot>)
  {
    forall i, j :: 0 <= i < |slots| && 0 <= j < |slots| && i != j ==>
      slots[i].start != slots[j].start && slots[i].value != slots[j].value
  }

  lemma HourTableDistinct(slots: seq<Slot>)
    requires IsHourTable(slots)
    ensures DistinctSlots(slots)
  {
    forall i, j | 0 <= i < 16 && 0 <= j < 16 && i != j
      ensures slots[i].start != slots[j].start && slots[i].value != slots[j].value
    {
      TwoDigitsInjective(8 + i, 8 + j);
      SlotForShape(8 + i);
      SlotForShape(8 + j);
      assert slots[i] == SlotFor(8 + i) && slots[j] == SlotFor(8 + j);
      assert slots[i].start[..2] != slots[j].start[..2];
    }
  }

  predicate StartsAtSix(s: Slot) { s.start == "18:00" }

  /** `DEFAULT_SLOT_VALUE` over the slot table: the value of the slot starting at "18:00" when
      it is not empty, else the first slot's value. */
  function DefaultSlotValue(slots: seq<Slot>): string
    requires |slots| > 0
  {
    match Find(slots, StartsAtSix)
    case Some(s) => if s.value != "" then s.value else slots[0].value
    case None => slots[0].value
  }

  /** The slot at index 10 is the first one starting at "18:00". */
  lemma SixIsFirst(slots: seq<Slot>)
    requires IsHourTable(slots)
    ensures StartsAtSix(slots[10]) && forall i :: 0 <= i < 10 ==> !StartsAtSix(slots[i])
  {
    assert slots[10] == SlotFor(18);
    HourTableDistinct(slots);
  }

  /** The slot of hour 18 runs from "18:00" to "19:00" and has a value. */
  lemma SlotAtSix()
    ensures SlotFor(18).start == "18:00" && SlotFor(18).end == "19:00" && SlotFor(18).value != ""
  {
    assert HourText(18) == "18:00";
    assert HourText(19) == "19:00";
  }

  /** The default slot is the one from 18:00 to 19:00. */
  lemma DefaultIsSix(slots: seq<Slot>)
    requires IsHourTable(slots)
    ensures DefaultSlotValue(slots) == slots[10].value
    ensures slots[10].start == "18:00" && slots[10].end == "19:00"
  {
    SixIsFirst(slots);
    FindFirst(slots, StartsAtSix, 10);
    assert slots[10] == SlotFor(18);
    SlotAtSix();
  }

  /** `reservasDelDia`: the bookings of the chosen court on the chosen day, in their order. */
  function ReservasDelDia(reservas: seq<Reserva>, canchaId: Id, fecha: string): (r: seq<Reserva>)
    ensures forall i :: 0 <= i < |r| ==> r[i] in reservas && r[i].canchaId == canchaId && r[i].fecha == fecha
    ensures forall i :: 0 <= i < |reservas| && reservas[i].canchaId == canchaId && reservas[i].fecha == fecha ==>
                          reservas[i] in r
    ensures forall x :: multiset(r)[x] == if x.canchaId == canchaId && x.fecha == fecha then multiset(reservas)[x] else 0
    ensures KeepsInOrder(r, reservas, (x: Reserva) => x.canchaId == canchaId && x.fecha == fecha)
  {
    FilterCount(reservas, (x: Reserva) => x.canchaId == canchaId && x.fecha == fecha);
    FilterKeepsOrder(reservas, (x: Reserva) => x.canchaId == canchaId && x.fecha == fecha);
    Filter(reservas, (x: Reserva) => x.canchaId == canchaId && x.fecha == fecha)
  }

  /** A slot is taken when some booking of the day starts at its start time. */
  predicate IsTaken(delDia: seq<Reserva>, start: string)
  {
    Any(delDia, (x: Reserva) => x.horaInicio == start)
  }

  /** `slotOptions`: every slot, in order, disabled and marked exactly when it is taken. */
  function SlotOptions(slots: seq<Slot>, delDia: seq<Reserva>): (opts: seq<SlotOption>)
    ensures |opts| == |slots|
    ensures forall i :: 0 <= i < |opts| ==>
              opts[i].value == slots[i].value
              && (opts[i].disabled <==> exists k :: 0 <= k < |delDia| && delDia[k].horaInicio == slots[i].start)
              && opts[i].caption == slots[i].caption + (if opts[i].disabled then ReservadoSuffix else "")
  {
    seq(|slots|, i requires 0 <= i < |slots| =>
      var taken := IsTaken(delDia, slots[i].start);
      SlotOption(slots[i].value, slots[i].caption + (if taken then ReservadoSuffix else ""), taken))
  }

  /** The court is usable: the first court with the id exists and is "ok" or "disponible". */
  predicate Usable(canchas: seq<Cancha>, canchaId: Id)
  {
    exists i :: 0 <= i < |canchas| && canchas[i].id == canchaId
                && (forall j :: 0 <= j < i ==> canchas[j].id != canchaId)
                && (canchas[i].estado == "ok" || canchas[i].estado == "disponible")
  }

  /** The i-th slot is the first whose value is `v`. */
  predicate FirstWithValue(slots: seq<Slot>, i: int, v: string)
  {
    0 <= i < |slots| && slots[i].value == v && forall j :: 0 <= j < i ==> slots[j].value != v
  }

  /** What the checks of `reservar` decide: a refusal message, or the times to send. */
  datatype Check = Refused(msg: string) | Accepted(horaInicio: string, horaFin: string)

  /** The checks of `reservar`, in order: the court, then the slot, then whether it is free. */
  function ReservaCheck(slots: seq<Slot>, canchas: seq<Cancha>, reservas: seq<Reserva>, canchaId: Id,
                        fecha: string, slotValue: string): (c: Check)
    ensures !Usable(canchas, canchaId) ==> c == Refused(NoDisponible)
    ensures Usable(canchas, canchaId) && (forall i :: 0 <= i < |slots| ==> slots[i].value != slotValue) ==>
              c == Refused(HorarioInvalido)
    ensures forall i :: Usable(canchas, canchaId) && FirstWithValue(slots, i, slotValue) ==>
              if IsTaken(ReservasDelDia(reservas, canchaId, fecha), slots[i].start)
              then c == Refused(Ocupado)
              else c == Accepted(slots[i].start, slots[i].end)
  {
    forall i | FirstWithValue(slots, i, slotValue)
      ensures Find(slots, (s: Slot) => s.value == slotValue) == Some(slots[i])
    {
      FindFirst(slots, (s: Slot) => s.value == slotValue, i);
    }
    var cancha := Find(canchas, (x: Cancha) => x.id == canchaId);
    if cancha.None? || (cancha.value.estado != "ok" && cancha.value.estado != "disponible") then
      Refused(NoDisponible)
    else
      match Find(slots, (s: Slot) => s.value == slotValue)
      case None => Refused(HorarioInvalido)
      case Some(slot) =>
        if IsTaken(ReservasDelDia(reservas, canchaId, fecha), slot.start) then Refused(Ocupado)
        else Accepted(slot.start, slot.end)
  }

  /** A start time no booking of the day has is free on that court and day. */
  lemma NotTakenIsFree(reservas: seq<Reserva>, canchaId: Id, fecha: string, start: string)
    requires !IsTaken(ReservasDelDia(reservas, canchaId, fecha), start)
    ensures forall k :: 0 <= k < |reservas| && reservas[k].canchaId == canchaId && reservas[k].fecha == fecha ==>
                          reservas[k].horaInicio != start
  {
    var delDia := ReservasDelDia(reservas, canchaId, fecha);
    forall k | 0 <= k < |reservas| && reservas[k].canchaId == canchaId && reservas[k].fecha == fecha
      ensures reservas[k].horaInicio != start
    {
      TakenBy(delDia, reservas[k], start);
    }
  }

  /** A booking of the day starting at `start` makes that start taken. */
  lemma TakenBy(delDia: seq<Reserva>, x: Reserva, start: string)
    requires x in delDia
    ensures x.horaInicio == start ==> IsTaken(delDia, start)
  {
  }

  /** An accepted booking carries the times of a slot and never starts where a booking of the
      same court and day already starts: the page does not send a double booking. */
  lemma AcceptedIsFree(slots: seq<Slot>, canchas: seq<Cancha>, reservas: seq<Reserva>, canchaId: Id,
                       fecha: string, slotValue: string)
    ensures var c := ReservaCheck(slots, canchas, reservas, canchaId, fecha, slotValue);
            c.Accepted? ==>
              (exists i :: 0 <= i < |slots| && slots[i].value == slotValue
                           && c.horaInicio == slots[i].start && c.horaFin == slots[i].end)
              && (forall k :: 0 <= k < |reservas| && reservas[k].canchaId == canchaId && reservas[k].fecha == fecha ==>
                                reservas[k].horaInicio != c.horaInicio)
  {
    var c := ReservaCheck(slots, canchas, reservas, canchaId, fecha, slotValue);
    if c.Accepted? {
      var slot := Find(slots, (s: Slot) => s.value == slotValue);
      assert slot.Some? && c == Accepted(slot.value.start, slot.value.end)
             && !IsTaken(ReservasDelDia(reservas, canchaId, fecha), slot.value.start);
      NotTakenIsFree(reservas, canchaId, fecha, slot.value.start);
    }
  }

  /** On a usable court, a slot the selector shows disabled is one the checks refuse as taken,
      and the other way round. */
  lemma DisabledIffRefused(slots: seq<Slot>, canchas: seq<Cancha>, reservas: seq<Reserva>, canchaId: Id,
                           fecha: string, i: int)
    requires DistinctSlots(slots) && Usable(canchas, canchaId) && 0 <= i < |slots|
    ensures SlotOptions(slots, ReservasDelDia(reservas, canchaId, fecha))[i].disabled
            <==> ReservaCheck(slots, canchas, reservas, canchaId, fecha, slots[i].value) == Refused(Ocupado)
  {
    assert FirstWithValue(slots, i, slots[i].value);
  }

  /** The page state of the booking form; `slots` is `HOUR_SLOTS`, built once. */
  class CanchasPage {
    var slots: seq<Slot>
    var canchaId: Id
    var fecha: string
    var slotValue: string
    var msg: string
    var msgType: string

    /** The form as it first shows: court 1, `today`, the 18:00 slot, no message. */
    constructor (today: string)
      ensures IsHourTable(slots)
      ensures canchaId == 1 && fecha == today
      ensures slotValue == slots[10].value && slots[10].start == "18:00" && slots[10].end == "19:00"
      ensures msg == "" && msgType == "success"
    {
      var table := BuildHourSlots();
      DefaultIsSix(table);
      slots := table;
      canchaId := 1;
      fecha := today;
      slotValue := DefaultSlotValue(table);
      msg := "";
      msgType := "success";
    }

    /** `reservar`: run the checks; a refusal sets the error message and sends nothing;
        otherwise the booking is handed to the cache and its outcome becomes the message. */
    method Reservar(store: DataStore, user: Option<Identity>, res: Reply<Reserva>)
      returns (sent: Option<Request>)
      modifies this`msg, this`msgType, store`state
      ensures var c := ReservaCheck(slots, old(store.state.canchas), old(store.state.reservas), canchaId, fecha, slotValue);
              match c
              case Refused(m) => sent == None && msg == m && msgType == "error" && store.state == old(store.state)
              case Accepted(hi, hf) =>
                if Guard(user, false).Some? then
                  sent == None && msg == Guard(user, false).value && msgType == "error"
                  && store.state == old(store.state)
                else
                  sent == Some(PostReserva(canchaId, fecha, hi, hf))
                  && (res.Ok? ==> msg == Confirmada && msgType == "success"
                                  && store.state == old(store.state).(reservas := old(store.state.reservas) + [res.data]))
                  && (res.Rejected? ==> msg == OrDefault(res.message, ErrorReservar) && msgType == "error"
                                        && store.state == old(store.state))
                  && (res.Unreachable? ==> msg == FetchFailed && msgType == "error" && store.state == old(store.state))
    {
      msg := "";
      var c := ReservaCheck(slots, store.state.canchas, store.state.reservas, canchaId, fecha, slotValue);
      if c.Refused? {
        msg := c.msg;
        msgType := "error";
        return None;
      }
      var r;
      sent, r := store.ReservarCancha(user, canchaId, fecha, c.horaInicio, c.horaFin, res);
      match r {
        case Done(_) =>
          msg := Confirmada;
          msgType := "success";
        case Threw(m) =>
          msg := OrDefault(Some(m), ErrorReservar);
          msgType := "error";
      }
    }
  }
}
