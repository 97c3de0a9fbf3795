/** The admin dashboard: dues income, tickets sold, members, and members with paid dues. */
module Dashboard {
  import opened Seqs
  import opened ClubTypes
  import opened Options
  import Cuotas
  import Register

  /** `u.cuota_estado === 'paga'`. */
  predicate CuotaPaga(u: Usuario)
  {
    u.cuotaEstado == Some(Cuotas.Paga)
  }

  function Cantidad(e: Entrada): int
  {
    e.cantidad
  }

  /** `usuariosActivos`: the members whose dues are paid. */
  function UsuariosActivos(usuarios: seq<Usuario>): (n: nat)
    ensures n <= |usuarios|
    ensures n == 0 <==> forall i :: 0 <= i < |usuarios| ==> !CuotaPaga(usuarios[i])
    ensures n == |usuarios| <==> forall i :: 0 <= i < |usuarios| ==> CuotaPaga(usuarios[i])
  {
    CountExtremes(usuarios, CuotaPaga);
    Count(usuarios, CuotaPaga)
  }

  /** `ingresosCuotas`: the paid members times the monthly amount. */
  function IngresosCuotas(usuarios: seq<Usuario>): (m: int)
    ensures 0 <= m <= Cuotas.MontoCuota * |usuarios|
    ensures m % Cuotas.MontoCuota == 0
    ensures m == 0 <==> forall i :: 0 <= i < |usuarios| ==> !CuotaPaga(usuarios[i])
  {
    CountExtremes(usuarios, CuotaPaga);
    |Filter(usuarios, CuotaPaga)| * Cuotas.MontoCuota
  }

  /** The income card and the paid-members card agree: the income is the paid count at the
      monthly amount. */
  lemma IngresosIsActivosTimesMonto(usuarios: seq<Usuario>)
    ensures IngresosCuotas(usuarios) == Cuotas.MontoCuota * UsuariosActivos(usuarios)
  {
  }

  /** `totalUsuarios`. */
  function TotalUsuarios(usuarios: seq<Usuario>): (n: nat)
    ensures n >= UsuariosActivos(usuarios)
  {
    |usuarios|
  }

  /** `entradasVendidas`: the sum of the quantities of every ticket order. */
  function EntradasVendidas(entradas: seq<Entrada>): int
  {
    SumBy(entradas, Cantidad)
  }

  /** Orders of 1 to 4 tickets each, as the ticket page sends them, sell between one and four
      tickets per order. */
  lemma EntradasVendidasBounds(entradas: seq<Entrada>)
    requires forall i :: 0 <= i < |entradas| ==> 1 <= entradas[i].cantidad <= 4
    ensures |entradas| <= EntradasVendidas(entradas) <= 4 * |entradas|
  {
    SumByBounds(entradas, Cantidad, 1, 4);
  }

  /** A new ticket order adds its quantity to the tickets sold. */
  lemma {:induction false} EntradasVendidasAppend(entradas: seq<Entrada>, e: Entrada)
    ensures EntradasVendidas(entradas + [e]) == EntradasVendidas(entradas) + e.cantidad
  {
    SumByAppend(entradas, [e], Cantidad);
    assert SumBy([e], Cantidad) == e.cantidad by {
      assert [e][..0] == [];
    }
  }

  /** A member who signs up has no paid dues: the total grows by one and the paid count and
      the income stay as they were. */
  lemma {:induction false} SignUpKeepsIncome(usuarios: seq<Usuario>, now: Id, f: Register.RegistroForm)
    ensures TotalUsuarios(usuarios + [Register.NuevoUsuario(now, f)]) == TotalUsuarios(usuarios) + 1
    ensures UsuariosActivos(usuarios + [Register.NuevoUsuario(now, f)]) == UsuariosActivos(usuarios)
    ensures IngresosCuotas(usuarios + [Register.NuevoUsuario(now, f)]) == IngresosCuotas(usuarios)
  {
    var nuevo := Register.NuevoUsuario(now, f);
    FilterAppend(usuarios, [nuevo], CuotaPaga);
    assert Filter([nuevo], CuotaPaga) == [] by {
      assert [nuevo][1..] == [];
    }
  }
}
