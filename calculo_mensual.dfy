/**
 * The monthly calculation behind "CALCULAR TODO EL SISTEMA": payroll tax
 * (ISN), income tax (ISR) under one of three regimes, value-added tax (IVA),
 * third-party withholdings, and the grand total.
 *
 * The form's figures arrive as one record; the four totals the page keeps in
 * its session are the record `Resumen` returned here.
 */
module CalculoMensual {
  import opened Texto
  import opened TablaIsr
  import opened TablaDefault

  /** Tab 1, "ISR / IVA": own income tax and VAT figures. */
  datatype IsrIva = IsrIva(
    ingresos: real, anticipos: real, coef: real, ptu: real, perdidas: real,
    gastos: real, pagosProv: real, retBanc: real, retOtras: real,
    ivaImp: real, ivaRetCte: real, ivaFav: real, ivaComp: real)

  /** Tab 2, "Retenciones": amounts withheld from third parties. */
  datatype Retenciones = Retenciones(rIva: real, rIsrServ: real, rSueldos: real, rCedular: real)

  /** Tab 3, "Nómina": the six payroll components. */
  datatype Nomina = Nomina(
    sueldos: real, bono1: real, bono2: real, despensa: real, extra: real, otros: real)

  /** Everything the calculation reads: the regime label chosen in the
      sidebar and the three tabs. */
  datatype Entradas = Entradas(regimen: string, propio: IsrIva, ret: Retenciones, nomina: Nomina)

  /** The four totals the calculation stores. */
  datatype Resumen = Resumen(totalIsr: real, totalIva: real, totalRet: real, totalIsn: real)

  /** The three income-tax regimes. */
  datatype Regimen = General | Resico | PersonaFisica

  /** The labels offered in the sidebar. */
  const EtiquetaGeneral: string := "RÉGIMEN GENERAL PM"
  const EtiquetaResico: string := "RESICO PM"
  const EtiquetaPersonaFisica: string := "PERSONA FÍSICA"

  /** Python's `max(0, x)`. */
  function Max0(x: real): (r: real)
    ensures r >= 0.0 && r >= x
    ensures r == 0.0 || r == x
  {
    if x > 0.0 then x else 0.0
  }

  /** `total_nomina`. */
  function TotalNomina(n: Nomina): real {
    n.sueldos + n.bono1 + n.bono2 + n.despensa + n.extra + n.otros
  }

  /** `isn_pagar`: 3% of the payroll. */
  function IsnPagar(n: Nomina): real {
    TotalNomina(n) * 0.03
  }

  /** `ing_total`: invoiced income plus advances. */
  function IngTotal(p: IsrIva): real {
    p.ingresos + p.anticipos
  }

  /** The regime a label selects: "GENERAL" anywhere in it wins, then
      "RESICO"; any other label is an individual. */
  function ClasificarRegimen(etiqueta: string): Regimen {
    if Contains(etiqueta, "GENERAL") then General
    else if Contains(etiqueta, "RESICO") then Resico
    else PersonaFisica
  }

  /** `base_isr`, the taxable base of the chosen regime. */
  function BaseIsr(e: Entradas): (b: real)
    ensures b >= 0.0
  {
    var p := e.propio;
    match ClasificarRegimen(e.regimen)
    case General => Max0(IngTotal(p) * p.coef - p.ptu - p.perdidas)
    case Resico => Max0(IngTotal(p) - p.gastos - TotalNomina(e.nomina) - p.ptu - p.perdidas)
    case PersonaFisica => Max0(IngTotal(p) - p.gastos - TotalNomina(e.nomina) - p.ptu - p.perdidas)
  }

  /** `isr_causado`: a flat 30% for companies, the bracket table for individuals. */
  function IsrCausado(e: Entradas): real {
    match ClasificarRegimen(e.regimen)
    case General => BaseIsr(e) * 0.30
    case Resico => BaseIsr(e) * 0.30
    case PersonaFisica => IsrPf(BaseIsr(e), DefaultRows)
  }

  /** `isr_pagar`: accrued tax less earlier provisional payments and the
      taxpayer's own withholdings, never below zero. */
  function IsrPagar(e: Entradas): real {
    var p := e.propio;
    Max0(IsrCausado(e) - p.pagosProv - (p.retBanc + p.retOtras))
  }

  /** `iva_cargo`: VAT charged less VAT credited less VAT withheld by clients
      (not clamped). */
  function IvaCargo(p: IsrIva): real {
    var ivaTras := IngTotal(p) * 0.16;
    var ivaAcred := p.gastos * 0.16 + p.ivaImp;
    ivaTras - ivaAcred - p.ivaRetCte
  }

  /** `iva_pagar`: the VAT balance less earlier credit and offsets, never below zero. */
  function IvaPagar(p: IsrIva): real {
    Max0(IvaCargo(p) - p.ivaFav - p.ivaComp)
  }

  /** `total_retenciones`. */
  function TotalRetenciones(r: Retenciones): real {
    r.rIva + r.rIsrServ + r.rSueldos + r.rCedular
  }

  /** The whole monthly calculation, as stored in the session. */
  function CalcularTodo(e: Entradas): Resumen {
    Resumen(IsrPagar(e), IvaPagar(e.propio), TotalRetenciones(e.ret), IsnPagar(e.nomina))
  }

  /** The "TOTAL A PAGAR" line of the report, added in the report's order. */
  function TotalReporte(e: Entradas): real {
    IsrPagar(e) + IvaPagar(e.propio) + IsnPagar(e.nomina) + TotalRetenciones(e.ret)
  }

  /** "GRAN TOTAL A PAGAR": the four stored totals, added in the summary tab's order. */
  function GranTotal(s: Resumen): real {
    s.totalIsr + s.totalIva + s.totalRet + s.totalIsn
  }

  /** Every figure on the form is entered as at least 0. */
  ghost predicate NoNegativas(e: Entradas) {
    var p, r, n := e.propio, e.ret, e.nomina;
    && p.ingresos >= 0.0 && p.anticipos >= 0.0 && p.coef >= 0.0 && p.ptu >= 0.0 && p.perdidas >= 0.0
    && p.gastos >= 0.0 && p.pagosProv >= 0.0 && p.retBanc >= 0.0 && p.retOtras >= 0.0
    && p.ivaImp >= 0.0 && p.ivaRetCte >= 0.0 && p.ivaFav >= 0.0 && p.ivaComp >= 0.0
    && r.rIva >= 0.0 && r.rIsrServ >= 0.0 && r.rSueldos >= 0.0 && r.rCedular >= 0.0
    && n.sueldos >= 0.0 && n.bono1 >= 0.0 && n.bono2 >= 0.0
    && n.despensa >= 0.0 && n.extra >= 0.0 && n.otros >= 0.0
  }

  // ---------------------------------------------------------------------
  // Regime dispatch

  /** The general company label selects the general regime. */
  lemma EtiquetaGeneralEsGeneral()
    ensures ClasificarRegimen(EtiquetaGeneral) == General
  {
    assert EtiquetaGeneral[8..15] == "GENERAL";
    ContainsAt(EtiquetaGeneral, "GENERAL", 8);
  }

  /** The RESICO label selects RESICO. */
  lemma EtiquetaResicoEsResico()
    ensures ClasificarRegimen(EtiquetaResico) == Resico
  {
    NotContainsWithoutFirst(EtiquetaResico, "GENERAL");
    assert EtiquetaResico[..6] == "RESICO";
    assert StartsWith(EtiquetaResico, "RESICO");
  }

  /** The individual label selects the bracket table. */
  lemma EtiquetaPersonaFisicaEsPersonaFisica()
    ensures ClasificarRegimen(EtiquetaPersonaFisica) == PersonaFisica
  {
    NotContainsWithoutFirst(EtiquetaPersonaFisica, "GENERAL");
    PersonaFisicaSinResico();
  }

  /** "PERSONA FÍSICA" does not contain "RESICO": its only 'R' is followed by 'S'. */
  lemma PersonaFisicaSinResico()
    ensures !Contains(EtiquetaPersonaFisica, "RESICO")
  {
    var s := EtiquetaPersonaFisica;
    assert s[3..] == "SONA FÍSICA";
    NotContainsWithoutFirst(s[3..], "RESICO");
    assert s[2..][1..] == s[3..];
    assert s[2..][..6] != "RESICO" by { assert s[2..][1] == 'S'; }
    assert s[1..][1..] == s[2..];
    assert s[1..][0] == 'E';
  }

  /** A label holding both words is treated as the general regime. */
  lemma GeneralTienePrioridad(etiqueta: string)
    requires Contains(etiqueta, "GENERAL") && Contains(etiqueta, "RESICO")
    ensures ClasificarRegimen(etiqueta) == General
  {
  }

  /** The tax accrued under every regime is never negative. */
  lemma IsrCausadoNoNegativo(e: Entradas)
    ensures IsrCausado(e) >= 0.0
  {
    if ClasificarRegimen(e.regimen) == PersonaFisica {
      DefaultTaxNonNegative(BaseIsr(e));
    }
  }

  /** The general regime taxes the profit coefficient times income: what is
      spent and what is paid in wages do not change its tax. */
  lemma GeneralIgnoraGastosYNomina(e: Entradas, gastos: real, nomina: Nomina)
    requires ClasificarRegimen(e.regimen) == General
    ensures IsrCausado(e) == IsrCausado(e.(propio := e.propio.(gastos := gastos), nomina := nomina))
    ensures IsrCausado(e) == 0.30 * Max0(IngTotal(e.propio) * e.propio.coef - e.propio.ptu - e.propio.perdidas)
  {
  }

  /** RESICO and individuals share the same base; RESICO takes a flat 30% of
      it and individuals pay the default bracket table on it. */
  lemma ResicoYPersonaFisicaCompartenBase(resico: Entradas, fisica: Entradas)
    requires ClasificarRegimen(resico.regimen) == Resico
    requires ClasificarRegimen(fisica.regimen) == PersonaFisica
    requires resico.propio == fisica.propio && resico.nomina == fisica.nomina
    ensures BaseIsr(resico) == BaseIsr(fisica)
    ensures var p := resico.propio;
            BaseIsr(resico) == Max0(IngTotal(p) - p.gastos - TotalNomina(resico.nomina) - p.ptu - p.perdidas)
    ensures IsrCausado(resico) == 0.30 * BaseIsr(resico)
    ensures IsrCausado(fisica) == IsrPf(BaseIsr(resico), DefaultRows)
  {
  }

  // ---------------------------------------------------------------------
  // Clamping

  /** The income tax due is zero exactly when provisional payments and own
      withholdings cover the accrued tax, and otherwise is the remainder. */
  lemma IsrPagarCero(e: Entradas)
    ensures CalcularTodo(e).totalIsr >= 0.0
    ensures CalcularTodo(e).totalIsr == 0.0
        <==> IsrCausado(e) <= e.propio.pagosProv + e.propio.retBanc + e.propio.retOtras
    ensures CalcularTodo(e).totalIsr > 0.0
        ==> CalcularTodo(e).totalIsr
            == IsrCausado(e) - e.propio.pagosProv - e.propio.retBanc - e.propio.retOtras
  {
  }

  /** More provisional payments never raise the income tax due. */
  lemma IsrPagarNoCreceConPagos(e: Entradas, pagos: real)
    requires pagos >= e.propio.pagosProv
    ensures CalcularTodo(e.(propio := e.propio.(pagosProv := pagos))).totalIsr <= CalcularTodo(e).totalIsr
  {
    var e2 := e.(propio := e.propio.(pagosProv := pagos));
    assert BaseIsr(e2) == BaseIsr(e);
    assert IsrCausado(e2) == IsrCausado(e);
  }

  /** The VAT due is zero exactly when the earlier credit and offsets cover
      the VAT balance, and otherwise is the remainder. */
  lemma IvaPagarCero(p: IsrIva)
    ensures IvaPagar(p) >= 0.0
    ensures IvaPagar(p) == 0.0 <==> IvaCargo(p) <= p.ivaFav + p.ivaComp
    ensures IvaPagar(p) > 0.0 ==> IvaPagar(p) == IvaCargo(p) - p.ivaFav - p.ivaComp
  {
  }

  /** The VAT balance itself is not clamped: deductions larger than income
      make it negative, while the VAT due stays at zero. */
  lemma IvaCargoPuedeSerNegativo()
    ensures var p := IsrIva(1000.0, 0.0, 0.0, 0.0, 0.0, 5000.0, 0.0, 0.0, 0.0, 0.0, 0.0, 0.0, 0.0);
            IvaCargo(p) == -640.0 && IvaPagar(p) == 0.0
  {
  }

  // ---------------------------------------------------------------------
  // Payroll tax, withholdings and the totals

  /** The payroll tax is 3% of the six payroll components; it grows with each
      of them. */
  lemma IsnTresPorCiento(e: Entradas, n: Nomina)
    ensures var m := e.nomina;
            CalcularTodo(e).totalIsn
            == 3.0 / 100.0 * (m.sueldos + m.bono1 + m.bono2 + m.despensa + m.extra + m.otros)
    ensures CalcularTodo(e.(nomina := n)).totalIsn - CalcularTodo(e).totalIsn
         == 0.03 * (TotalNomina(n) - TotalNomina(e.nomina))
  {
  }

  /** The withholdings total is the plain sum of the four amounts, with no
      clamp: it is negative when they add up to less than zero. */
  lemma RetencionesSinTope(e: Entradas)
    ensures var r := e.ret;
            CalcularTodo(e).totalRet == r.rIva + r.rIsrServ + r.rSueldos + r.rCedular
    ensures var r := e.ret;
            r.rIva + r.rIsrServ + r.rSueldos + r.rCedular < 0.0 ==> CalcularTodo(e).totalRet < 0.0
  {
  }

  /** The grand total shown in the summary tab equals the report's total,
      though the two add the four amounts in different orders. */
  lemma TotalesCoinciden(e: Entradas)
    ensures GranTotal(CalcularTodo(e)) == TotalReporte(e)
  {
  }

  /** With the figures the form accepts, every stored total and the grand
      total are not negative. */
  lemma ResumenNoNegativo(e: Entradas)
    requires NoNegativas(e)
    ensures var s := CalcularTodo(e);
            s.totalIsr >= 0.0 && s.totalIva >= 0.0 && s.totalRet >= 0.0 && s.totalIsn >= 0.0
    ensures GranTotal(CalcularTodo(e)) >= 0.0
  {
  }

  /** An individual with income 100000 and deductions 20000, and nothing
      else, has base 80000 and owes 5416.302496 in income tax. */
  lemma EjemploPersonaFisica()
    ensures var e := Entradas(
              EtiquetaPersonaFisica,
              IsrIva(100000.0, 0.0, 0.0, 0.0, 0.0, 20000.0, 0.0, 0.0, 0.0, 0.0, 0.0, 0.0, 0.0),
              Retenciones(0.0, 0.0, 0.0, 0.0),
              Nomina(0.0, 0.0, 0.0, 0.0, 0.0, 0.0));
            BaseIsr(e) == 80000.0 && CalcularTodo(e).totalIsr == 5416.302496
  {
    var e := Entradas(
      EtiquetaPersonaFisica,
      IsrIva(100000.0, 0.0, 0.0, 0.0, 0.0, 20000.0, 0.0, 0.0, 0.0, 0.0, 0.0, 0.0, 0.0),
      Retenciones(0.0, 0.0, 0.0, 0.0),
      Nomina(0.0, 0.0, 0.0, 0.0, 0.0, 0.0));
    EtiquetaPersonaFisicaEsPersonaFisica();
    assert TotalNomina(e.nomina) == 0.0;
    assert IngTotal(e.propio) == 100000.0;
    assert BaseIsr(e) == 80000.0;
    DefaultAt80000();
    assert IsrCausado(e) == 5416.302496;
  }
}
