/**
 * The estimated yearly calculation of the "Anual" tab: the year's profit,
 * a flat 30% income tax on it, and what is left to pay after the
 * provisional payments already made.
 */
module CalculoAnual {
  import opened CalculoMensual

  /** The three figures the tab shows. */
  datatype Anual = Anual(utilidad: real, isrCausado: real, isrPagar: real)

  /** `anu_util`, `anu_isr` and `anu_neto` from the year's income, deductions
      and provisional payments. */
  function CalcularAnual(ingresos: real, deducciones: real, pagos: real): Anual {
    var utilidad := Max0(ingresos - deducciones);
    var isr := utilidad * 0.30;
    Anual(utilidad, isr, Max0(isr - pagos))
  }

  /** None of the three figures is ever negative, and the tax due never
      exceeds the tax accrued once payments are not negative. */
  lemma AnualNoNegativo(ingresos: real, deducciones: real, pagos: real)
    ensures var a := CalcularAnual(ingresos, deducciones, pagos);
            a.utilidad >= 0.0 && a.isrCausado >= 0.0 && a.isrPagar >= 0.0
    ensures pagos >= 0.0 ==> CalcularAnual(ingresos, deducciones, pagos).isrPagar
                             <= CalcularAnual(ingresos, deducciones, pagos).isrCausado
  {
  }

  /** The profit is zero exactly when deductions reach income; the tax due is
      zero exactly when the payments reach 30% of the profit, and otherwise
      it is the remainder. */
  lemma AnualCeros(ingresos: real, deducciones: real, pagos: real)
    ensures CalcularAnual(ingresos, deducciones, pagos).utilidad == 0.0 <==> deducciones >= ingresos
    ensures var a := CalcularAnual(ingresos, deducciones, pagos);
            a.isrPagar == 0.0 <==> pagos >= 0.30 * a.utilidad
    ensures var a := CalcularAnual(ingresos, deducciones, pagos);
            a.isrPagar > 0.0 ==> a.isrPagar == 0.30 * a.utilidad - pagos
  {
  }

  /** More income never lowers the tax due; more payments never raise it. */
  lemma AnualMonotono(ing1: real, ing2: real, deducciones: real, pagos1: real, pagos2: real)
    requires ing1 <= ing2 && pagos2 <= pagos1
    ensures CalcularAnual(ing1, deducciones, pagos1).isrPagar
         <= CalcularAnual(ing2, deducciones, pagos2).isrPagar
  {
  }
}
