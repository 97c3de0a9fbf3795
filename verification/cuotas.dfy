/** The dues page: the member's dues status and period, the payment-method labels, the pay
    button, the payment itself, and the operation number printed on the receipt. The profile
    page shows the same status, period and labels and uses these definitions. */
module Cuotas {
  import opened Options
  import opened Text
  import opened ClubTypes
  import opened DataContext

  /** The monthly dues, a fixed amount in pesos. */
  const MontoCuota := 15000
  const Paga := "paga"
  const DefaultMedio := "mercadopago"
  const ErrorPago := "Error al procesar el pago"
  const TicketPrefix := "AJ-"
  const LabelDebito := "Tarjeta de débito"
  const LabelEfectivo := "Efectivo"
  const LabelMercadoPago := "MercadoPago"
  const Procesando := "Procesando..."
  const PagarAhoraCaption := "Pagar ahora"

  /** The clock reading `hoy`: calendar year, month (1..12, `getMonth() + 1`), day of the
      month, and milliseconds since the epoch (`getTime()`). */
  datatype Hoy = Hoy(anio: nat, mes: int, dia: int, millis: nat)

  /** What a `Date` of the browser always gives. */
  predicate IsCalendarDate(h: Hoy)
  {
    1 <= h.mes <= 12 && 1 <= h.dia <= 31
  }

  /** `state.usuarios.find(u => u.id === user?.id)`: the logged-in member's record. */
  function Socio(usuarios: seq<Usuario>, userId: Option<Id>): (s: Option<Usuario>)
    ensures s.None? <==> userId.None? || forall i :: 0 <= i < |usuarios| ==> usuarios[i].id != userId.value
    ensures s.Some? ==> s.value in usuarios && s.value.id == userId.value
  {
    if userId.None? then None else Seqs.Find(usuarios, (u: Usuario) => u.id == userId.value)
  }

  /** `cuota?.estado === "paga"`. */
  predicate EstaPaga(socio: Option<Usuario>)
  {
    socio.Some? && socio.value.cuotaEstado == Some(Paga)
  }

  /** The status both dues views print. */
  function EstadoTexto(socio: Option<Usuario>): (t: string)
    ensures t == "PAGA" || t == "PENDIENTE"
    ensures t == "PAGA" <==> EstaPaga(socio)
  {
    if EstaPaga(socio) then "PAGA" else "PENDIENTE"
  }

  /** A JavaScript number field tested with `&&`: present and not 0. */
  predicate Truthy(n: Option<int>)
  {
    n.Some? && n.value != 0
  }

  /** The record carries a dues period (`cuota?.mes && cuota?.anio`). */
  predicate HasPeriodo(socio: Option<Usuario>)
  {
    socio.Some? && Truthy(socio.value.cuotaMes) && Truthy(socio.value.cuotaAnio)
  }

  /** `${String(mes).padStart(2, "0")}/${anio}`. */
  function MonthYear(mes: int, anio: int): string
  {
    Pad2(mes) + ("/" + IntToString(anio))
  }

  /** The member's period when the record carries one, `fallback` otherwise. */
  function PeriodoOr(socio: Option<Usuario>, fallback: string): string
  {
    if HasPeriodo(socio) then MonthYear(socio.value.cuotaMes.value, socio.value.cuotaAnio.value)
    else fallback
  }

  /** `periodoActual`: this month. */
  function PeriodoActual(hoy: Hoy): string
  {
    MonthYear(hoy.mes, hoy.anio)
  }

  /** `periodoShown`: the member's period, or this month when the record carries none. */
  function PeriodoShown(socio: Option<Usuario>, hoy: Hoy): string
  {
    PeriodoOr(socio, PeriodoActual(hoy))
  }

  /** A two-character text, a slash and a tail: the slash sits at index 2. */
  lemma SlashParts(d: string, y: string)
    requires |d| == 2
    ensures var t := d + ("/" + y);
            |t| >= 3 && t[..2] == d && t[2] == '/' && t[3..] == y
  {
  }

  /** For a month 1..12 the "MM/YYYY" text holds two digits that read back as the month, a
      slash, and text that `parseInt` reads back as the year. */
  lemma MonthYearReadsBack(mes: int, anio: int)
    requires 1 <= mes <= 12
    ensures var t := MonthYear(mes, anio);
            |t| >= 4 && t[2] == '/' && AllDigits(t[..2]) && DigitsValue(t[..2]) == mes &&
            ParseInt(t[3..]) == Int(anio)
  {
    var y := IntToString(anio);
    assert MonthYear(mes, anio) == TwoDigits(mes) + ("/" + y) by {
      Pad2Closed(mes);
    }
    SlashParts(TwoDigits(mes), y);
    ParseIntRoundTrip(anio);
  }

  /** The period a page shows is the fallback exactly when the record carries no period, and
      otherwise reads back as the record's month and year. */
  lemma PeriodoOrReadsBack(socio: Option<Usuario>, fallback: string)
    ensures !HasPeriodo(socio) ==> PeriodoOr(socio, fallback) == fallback
    ensures HasPeriodo(socio) && 1 <= socio.value.cuotaMes.value <= 12 ==>
              var t := PeriodoOr(socio, fallback);
              |t| >= 4 && t[2] == '/' && DigitsValue(t[..2]) == socio.value.cuotaMes.value &&
              ParseInt(t[3..]) == Int(socio.value.cuotaAnio.value)
  {
    if HasPeriodo(socio) && 1 <= socio.value.cuotaMes.value <= 12 {
      MonthYearReadsBack(socio.value.cuotaMes.value, socio.value.cuotaAnio.value);
    }
  }

  /** On the dues page the period always reads back as a month and a year: the record's when
      it carries one, today's otherwise. */
  lemma PeriodoShownReadsBack(socio: Option<Usuario>, hoy: Hoy)
    requires IsCalendarDate(hoy)
    requires HasPeriodo(socio) ==> 1 <= socio.value.cuotaMes.value <= 12
    ensures var t := PeriodoShown(socio, hoy);
            var mes := if HasPeriodo(socio) then socio.value.cuotaMes.value else hoy.mes;
            var anio := if HasPeriodo(socio) then socio.value.cuotaAnio.value else hoy.anio;
            |t| >= 4 && t[2] == '/' && AllDigits(t[..2]) && DigitsValue(t[..2]) == mes &&
            ParseInt(t[3..]) == Int(anio)
  {
    if HasPeriodo(socio) {
      MonthYearReadsBack(socio.value.cuotaMes.value, socio.value.cuotaAnio.value);
    } else {
      MonthYearReadsBack(hoy.mes, hoy.anio);
    }
  }

  /** `labelMedio` / `medioLabel`: "debito" and "efectivo" have their own labels, anything
      else (a missing one too) reads "MercadoPago". */
  function MedioLabel(medio: Option<string>): (l: string)
    ensures l == LabelDebito <==> medio == Some("debito")
    ensures l == LabelEfectivo <==> medio == Some("efectivo")
    ensures l == LabelMercadoPago <==> medio != Some("debito") && medio != Some("efectivo")
  {
    if medio == Some("debito") then LabelDebito
    else if medio == Some("efectivo") then LabelEfectivo
    else LabelMercadoPago
  }

  /** The button under the amount: "Pagar ahora" (disabled and relabelled while a payment
      is in flight) for dues not yet paid, a disabled "Cuota al día" otherwise. */
  datatype PayButton = Pagar(disabled: bool, caption: string) | CuotaAlDia

  function PayButtonFor(socio: Option<Usuario>, loading: bool): (b: PayButton)
    ensures b.Pagar? <==> !EstaPaga(socio)
    ensures b.Pagar? ==> b.disabled == loading
    ensures b.Pagar? ==> (b.caption == Procesando <==> loading)
  {
    if EstaPaga(socio) then CuotaAlDia
    else Pagar(loading, if loading then Procesando else PagarAhoraCaption)
  }

  /** "N° Operación": `AJ-` + year + zero-padded month + zero-padded day + `-` + the last six
      digits of the timestamp. */
  function OperationNumber(hoy: Hoy): string
  {
    TicketPrefix + (NatToString(hoy.anio) + Pad2(hoy.mes) + Pad2(hoy.dia) + ("-" + LastChars(NatToString(hoy.millis), 6)))
  }

  /** The fields an operation number carries, as text and as numbers. */
  datatype Fields = Fields(anio: string, mes: string, dia: string, sello: string)

  datatype Operation = Operation(anio: nat, mes: nat, dia: nat, sello: nat)

  /** Splits an operation number: the prefix, then a run of digits of which the last four are
      the month and the day, a dash, and the digits of the timestamp. */
  function SplitOperationNumber(r: string): Option<Fields>
  {
    if |r| < 3 || r[..3] != TicketPrefix then None else SplitAfterPrefix(r[3..])
  }

  function SplitAfterPrefix(t: string): Option<Fields>
  {
    var k := RunLength(t, 10);
    if k < 5 || k == |t| || t[k] != '-' then None
    else Some(Fields(t[..k - 4], t[k - 4..k - 2], t[k - 2..k], t[k + 1..]))
  }

  predicate AllDigitFields(f: Fields)
  {
    AllDigits(f.anio) && AllDigits(f.mes) && AllDigits(f.dia) && AllDigits(f.sello)
  }

  /** Reads an operation number back into its four numbers. */
  function ParseOperationNumber(r: string): Option<Operation>
  {
    match SplitOperationNumber(r)
    case None => None
    case Some(f) =>
      if AllDigitFields(f) then
        Some(Operation(DigitsValue(f.anio), DigitsValue(f.mes), DigitsValue(f.dia), DigitsValue(f.sello)))
      else None
  }

  /** A run of digits followed by a non-digit is exactly as long as the run. */
  lemma {:induction false} RunStops(u: string, rest: string)
    requires AllDigits(u) && rest != [] && !IsDigit(rest[0])
    ensures RunLength(u + rest, 10) == |u|
  {
    if u != [] {
      assert (u + rest)[1..] == u[1..] + rest;
      RunStops(u[1..], rest);
    }
  }

  /** The prefix is recognised and dropped. */
  lemma PrefixSplit(t: string)
    ensures SplitOperationNumber(TicketPrefix + t) == SplitAfterPrefix(t)
  {
    var r := TicketPrefix + t;
    assert r[..3] == TicketPrefix;
    assert r[3..] == t;
  }

  /** Splitting undoes the concatenation, for digit fields of the right widths. */
  lemma SplitFields(y: string, m: string, d: string, s: string)
    requires |y| >= 1 && |m| == 2 && |d| == 2 && AllDigits(y) && AllDigits(m) && AllDigits(d)
    ensures SplitOperationNumber(TicketPrefix + (y + m + d + ("-" + s))) == Some(Fields(y, m, d, s))
  {
    var u := y + m + d;
    var t := u + ("-" + s);
    var n := |y|;
    assert SplitAfterPrefix(t) == Some(Fields(y, m, d, s)) by {
      assert AllDigits(u);
      RunStops(u, "-" + s);
      assert t[..n] == y && t[n..n + 2] == m && t[n + 2..n + 4] == d;
      assert t[n + 4] == '-' && t[n + 5..] == s;
    }
    PrefixSplit(t);
  }

  /** The receipt's operation number reads back as the payment's year, month and day, and
      the timestamp modulo 10^6. */
  lemma OperationNumberRoundTrip(hoy: Hoy)
    requires IsCalendarDate(hoy)
    ensures ParseOperationNumber(OperationNumber(hoy)) ==
            Some(Operation(hoy.anio, hoy.mes, hoy.dia, hoy.millis % 1000000))
  {
    var f := Fields(NatToString(hoy.anio), Pad2(hoy.mes), Pad2(hoy.dia), LastChars(NatToString(hoy.millis), 6));
    assert SplitOperationNumber(OperationNumber(hoy)) == Some(f) by {
      Pad2Closed(hoy.mes);
      Pad2Closed(hoy.dia);
      SplitFields(f.anio, f.mes, f.dia, f.sello);
    }
    assert AllDigitFields(f) && DigitsValue(f.anio) == hoy.anio by {
      Pad2Closed(hoy.mes);
      Pad2Closed(hoy.dia);
      LastDigitsOfNat(hoy.millis, 6);
      NatToStringValue(hoy.anio);
    }
    assert DigitsValue(f.mes) == hoy.mes && DigitsValue(f.dia) == hoy.dia by {
      Pad2Closed(hoy.mes);
      Pad2Closed(hoy.dia);
    }
    assert DigitsValue(f.sello) == hoy.millis % 1000000 by {
      LastDigitsOfNat(hoy.millis, 6);
      SixDigits();
    }
  }

  lemma SixDigits()
    ensures Pow10(6) == 1000000
  {
  }

  /** The dues page's own state: the chosen method, the receipt modal and the busy flag. */
  class CuotasPage {
    var medio: string
    var showTicket: bool
    var loading: bool

    /** `useState(cuota?.medio || "mercadopago")`, no receipt, not busy. */
    constructor (socio: Option<Usuario>)
      ensures medio == OrDefault(if socio.Some? then socio.value.cuotaMedio else None, DefaultMedio)
      ensures !showTicket && !loading
    {
      medio := OrDefault(if socio.Some? then socio.value.cuotaMedio else None, DefaultMedio);
      showTicket := false;
      loading := false;
    }

    /** A radio button's `onChange`. */
    method SetMedio(m: string)
      modifies this`medio
      ensures medio == m
    {
      medio := m;
    }

    /** The receipt's "Cerrar". */
    method CloseTicket()
      modifies this`showTicket
      ensures !showTicket
    {
      showTicket := false;
    }

    /** `pagarAhora`: pay this month's dues with the chosen method through `pagarCuota`; the
        receipt opens when it resolves, an alert (returned here) reports a throw, and the page
        is no longer busy on either path. */
    method PagarAhora(store: DataStore, user: Option<Identity>, hoy: Hoy, res: Reply<()>, refetch: Reply<Cache>)
      returns (sent: Option<Request>, alert: Option<string>)
      modifies this`showTicket, this`loading, store
      ensures Guard(user, false).None? ==> sent == Some(PostPago(hoy.mes, hoy.anio, medio))
      ensures Guard(user, false).Some? ==> sent == None
      ensures Guard(user, false).None? && res.Ok? ==> showTicket && alert == None && store.Settled(refetch)
      ensures !(Guard(user, false).None? && res.Ok?) ==>
                showTicket == old(showTicket) && alert == Some(ErrorPago) && unchanged(store)
      ensures !loading
    {
      loading := true;
      var r;
      sent, r := store.PagarCuota(user, hoy.mes, hoy.anio, medio, res, refetch);
      if r.Done? {
        showTicket := true;
        alert := None;
      } else {
        alert := Some(ErrorPago);
      }
      loading := false;
    }
  }
}
