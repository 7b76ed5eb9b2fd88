# Sistema Fiscal: the tax arithmetic, modelled in Dafny

This project models the tax arithmetic of the Sistema Fiscal web form
(`app_web.py`). The form collects a month's figures for a Mexican taxpayer,
then works out four amounts. The page keeps each one in its session:

- payroll tax (ISN), a flat 3% of payroll;
- income tax (ISR), under one of three regimes:
  - general company regime: 30% of coefficient-based profit;
  - RESICO: 30% of a simplified base;
  - individual ("persona física"): an eleven-bracket progressive table;
- value-added tax (IVA), clamped at zero;
- withholdings made on behalf of third parties.

It also computes a yearly estimate, a client label and a shortened report
title.

Money is `real`, which is exact arithmetic. Every property holds over exact
numbers; nothing is claimed about floating-point rounding.

Files and modules:

- `wrappers.dfy`, module `Wrappers`: `Option`.
- `texto.dfy`, module `Texto`: the string operations the program relies on.
  - `Split` is `str.split(sep)`, and `Join` is its inverse. Both round trips
    are proved.
  - `Contains` is `sub in s`, proved equal to the positional definition of a
    substring.
- `tabla_isr.dfy`, module `TablaIsr`: the bracket lookup `calcular_isr_pf`.
  - `CalcularIsrPf` is the source's loop: `continue` on short lines, `break`
    at the first bound above the base, and `return 0.0` where the bare
    `except` catches a failed `float()`.
  - It is proved equal to the fold `Run`/`IsrPf`.
  - `IsrPf` is in turn characterised by positions (`IsrPfCharacterised`),
    through the stopping line `StopsAt` and the last three-field line before
    it (`LastFull`).
- `tabla_default.dfy`, module `TablaDefault`: `TABLA_DEFAULT` and the lookup
  evaluated on it.
- `calculo_mensual.dfy`, module `CalculoMensual`: the "CALCULAR TODO"
  computation.
  - `CalcularTodo` returns the four stored totals as a `Resumen` record.
  - `TotalReporte` is the report's total and `GranTotal` the summary tab's
    grand total.
- `calculo_anual.dfy`, module `CalculoAnual`: the yearly estimate.
- `cliente.dfy`, module `Cliente`: the client label and the title
  truncation.

Three behaviours of the code are worth knowing before reading the contracts:

- **Bad fields.** A non-numeric field that the bracket scan reads makes the
  whole lookup return 0 (`ZeroOnBadBound`, `ZeroOnBadMatchedField`). Only
  lines with fewer than three fields are skipped.
- **Monotonicity.** The bracket tax is not monotone across brackets: with the
  default table 7735.00 pays 148.511808 and 7735.01 pays 148.51
  (`DefaultNotMonotone`). What holds is monotonicity within one bracket
  (`MonotoneWithinBracket`).
- **A worked value.** A base of 80000 owes exactly 5416.302496
  (`DefaultAt80000`, `EjemploPersonaFisica`).

## Model

| member | source | states |
|---|---|---|
| `Texto.Split` | app_web.py:54-55 | there is always at least one piece, and no piece contains the separator |
| `Texto.JoinSplit` | app_web.py:54-55 | joining the pieces with the separator gives back the original text |
| `Texto.SplitJoin` | app_web.py:54-55 | splitting a join of separator-free pieces gives back exactly those pieces |
| `Texto.SplitCount` | app_web.py:55-56 | a line has one more field than it has commas, so a line is skipped exactly when it has fewer than two commas |
| `Texto.ContainsAt` | app_web.py:273-277 | an occurrence of `sub` at any position makes `sub in s` true |
| `Texto.NotContainsWithoutFirst` | app_web.py:273-277 | a text that lacks the first letter of `sub` does not contain `sub` |
| `Texto.Join` | app_web.py:54-55 | glues pieces back with the separator; it is the inverse of `Split`, stated by `JoinSplit` and `SplitJoin` |
| `Texto.Contains` | app_web.py:273-277 | Python's `sub in s`; stated by `ContainsIff`, `ContainsAt` and `NotContainsWithoutFirst` |
| `Texto.ContainsIff` | app_web.py:273-277 | the regime test `sub in s` holds exactly when `sub` occurs at some position of `s` |
| `TablaIsr.Tax` | app_web.py:62 | the formula `(base - li) * (pct / 100) + cf` for one bracket; its behaviour is stated by `MonotoneWithinBracket` and `NonNegativeTax` |
| `TablaIsr.Step` | app_web.py:55-61 | one line of the scan: skip a short line, stop at a bound above the base, fail on a non-numeric field it reads; stated by `RunHalts`, `ShortRowIgnored` and `ExtraFieldsIgnored` |
| `TablaIsr.Run` | app_web.py:54-61 | the scan over all lines; stated by `RunHalts`, `RunAppend` and `IgnoresRowsAfterStop` |
| `TablaIsr.IsrPf` | app_web.py:51-63 | `calcular_isr_pf` over already parsed lines; characterised by `IsrPfCharacterised` and the lemmas that follow from it |
| `TablaIsr.ParseTable` | app_web.py:54-55 | the table text split at line breaks, then each line at its commas; `CalcularIsrPf` is proved equal to `IsrPf` on it |
| `TablaIsr.CalcularIsrPf` | app_web.py:51-63 | the loop returns the fold's value `IsrPf` of the table read line by line and field by field; a non-numeric field it reads makes it return 0 |
| `TablaIsr.ParseFields` | app_web.py:55-59 | each field of a line is read by `float()` on its own: the row has one entry per comma-separated field, in order |
| `TablaIsr.ParseLines` | app_web.py:54-55 | the table has one row per line of the text, and row `k` is line `k` split at its commas and read field by field |
| `TablaIsr.RunHalts` | app_web.py:60-61 | once the scan has broken off or failed, no later line changes the outcome |
| `TablaIsr.RunAppend` | app_web.py:54-61 | scanning two blocks of lines equals scanning the first block and then the second |
| `TablaIsr.StopFrom` | app_web.py:58-61 | every table has a stopping line: the lines before it match, and it has a non-numeric bound or one above the base (or it is the end) |
| `TablaIsr.StopIndexUnique` | app_web.py:58-61 | the stopping line is unique |
| `TablaIsr.LastFull` | app_web.py:56-59 | gives the last line with three or more fields before a given position, or none when there is no such line |
| `TablaIsr.IsrPfCharacterised` | app_web.py:51-63 | result is 0 if the stopping line's bound or a matched line's quota or rate is non-numeric; otherwise it is the tax in the last matched bracket, or in the zero bracket if none matched |
| `TablaIsr.SelectsLastMatchedRow` | app_web.py:58-62 | the last line whose bound is at most the base, bound included, is used: result is `(base - li) * (pct / 100) + cf` for that line |
| `TablaIsr.ZeroWhenNoRowMatches` | app_web.py:53-62 | when no line is matched before the stop, the result is 0 |
| `TablaIsr.ZeroFallbacks` | app_web.py:53-62 | an empty table, a table of short lines only, or a base below the first bound each give 0 |
| `TablaIsr.ZeroOnBadBound` | app_web.py:57-63 | a non-numeric bound on the stopping line makes the whole result 0, whatever the other lines hold |
| `TablaIsr.ZeroOnBadMatchedField` | app_web.py:59-63 | a non-numeric quota or rate on any matched line makes the whole result 0; the line is not skipped |
| `TablaIsr.IgnoresRowsAfterStop` | app_web.py:60-61 | lines after the stopping line can be replaced by anything, malformed lines included, without changing the result |
| `TablaIsr.ShortRowIgnored` | app_web.py:56 | inserting a line with fewer than three fields anywhere changes nothing |
| `TablaIsr.FirstThree` | app_web.py:55-59 | cutting each line to its first three fields keeps the number of lines; each cut line is a prefix of the original, three fields long when the original has at least three |
| `TablaIsr.ExtraFieldsIgnored` | app_web.py:55-59 | fields after the third never affect the result |
| `TablaIsr.SortedTableSelectsInterval` | app_web.py:58-62 | in a well-formed ascending table, a base in `[li_j, li_j+1)` is taxed in bracket `j` |
| `TablaIsr.MonotoneWithinBracket` | app_web.py:62 | within one bracket with a rate that is not negative, a larger base never gives a smaller tax |
| `TablaIsr.NonNegativeTax` | app_web.py:62 | whenever the table's quotas and rates are not negative, no base gets a negative tax |
| `TablaDefault.DefaultRows` | app_web.py:33-43 | `TABLA_DEFAULT` as parsed rows, value for value; its shape is stated by `DefaultTableShape` and its values by the `Default*` lemmas |
| `TablaDefault.DefaultTableShape` | app_web.py:33-43 | the default table has eleven complete numeric lines, its bounds ascend, and its quotas and rates are not negative |
| `TablaDefault.DefaultAtSecondBound` | app_web.py:33-43 | a base of exactly 7735.01 pays that bracket's fixed quota, 148.51 |
| `TablaDefault.DefaultBelowFirstBound` | app_web.py:33 | a base of 0, below the first bound 0.01, pays 0 |
| `TablaDefault.DefaultAt80000` | app_web.py:35 | a base of 80000 falls in the bracket from 65651.08 and pays 5416.302496 |
| `TablaDefault.DefaultNotMonotone` | app_web.py:33-34 | 7735.00 pays 148.511808, more than the 148.51 paid at 7735.01 |
| `TablaDefault.DefaultTaxNonNegative` | app_web.py:33-43 | on the default table no base ever gets a negative tax |
| `CalculoMensual.TotalNomina` | app_web.py:263 | the payroll total; stated by `IsnTresPorCiento` |
| `CalculoMensual.IsnPagar` | app_web.py:264 | 3% of payroll; stated by `IsnTresPorCiento` and `ResumenNoNegativo` |
| `CalculoMensual.IngTotal` | app_web.py:267 | income plus advances; it feeds every regime's base, as `GeneralIgnoraGastosYNomina` and `ResicoYPersonaFisicaCompartenBase` state |
| `CalculoMensual.ClasificarRegimen` | app_web.py:273-280 | the `if "GENERAL" in … elif "RESICO" in … else` dispatch; stated by `GeneralTienePrioridad` and the three `Etiqueta…Es…` lemmas |
| `CalculoMensual.IsrCausado` | app_web.py:273-282 | accrued income tax per regime; stated by `IsrCausadoNoNegativo`, `GeneralIgnoraGastosYNomina`, `ResicoYPersonaFisicaCompartenBase` and `EjemploPersonaFisica` |
| `CalculoMensual.IsrPagar` | app_web.py:268-284 | income tax due after payments and own withholdings; clamping stated by `IsrPagarCero` and `IsrPagarNoCreceConPagos` |
| `CalculoMensual.IvaCargo` | app_web.py:287-289 | the unclamped VAT balance; stated by `IvaPagarCero` and `IvaCargoPuedeSerNegativo` |
| `CalculoMensual.IvaPagar` | app_web.py:290 | VAT due; clamping stated by `IvaPagarCero` and `IvaCargoPuedeSerNegativo` |
| `CalculoMensual.TotalRetenciones` | app_web.py:293 | the withholdings total; stated by `RetencionesSinTope` |
| `CalculoMensual.CalcularTodo` | app_web.py:261-299 | the four totals stored in the session; stated by `ResumenNoNegativo` and `TotalesCoinciden` |
| `CalculoMensual.TotalReporte` | app_web.py:310 | the report's "TOTAL A PAGAR"; stated by `TotalesCoinciden` |
| `CalculoMensual.GranTotal` | app_web.py:327 | the summary tab's grand total; stated by `TotalesCoinciden` and `ResumenNoNegativo` |
| `CalculoMensual.Max0` | app_web.py:275 | `max(0, x)` is at least 0 and at least `x`, and is one of the two |
| `CalculoMensual.BaseIsr` | app_web.py:270-281 | the taxable base is never negative, in every regime branch |
| `CalculoMensual.EtiquetaGeneralEsGeneral` | app_web.py:172-273 | the label "RÉGIMEN GENERAL PM" contains "GENERAL" and selects the general regime |
| `CalculoMensual.EtiquetaResicoEsResico` | app_web.py:172-277 | the label "RESICO PM" lacks "GENERAL", contains "RESICO" and selects RESICO |
| `CalculoMensual.EtiquetaPersonaFisicaEsPersonaFisica` | app_web.py:172-280 | the label "PERSONA FÍSICA" contains neither word and reaches the bracket-table branch |
| `CalculoMensual.PersonaFisicaSinResico` | app_web.py:277 | the individual label does not contain "RESICO", so it reaches the bracket branch |
| `CalculoMensual.GeneralTienePrioridad` | app_web.py:273-277 | a label containing both "GENERAL" and "RESICO" is treated as the general regime |
| `CalculoMensual.IsrCausadoNoNegativo` | app_web.py:273-282 | accrued income tax is never negative under any regime |
| `CalculoMensual.GeneralIgnoraGastosYNomina` | app_web.py:273-276 | general regime: the tax is 30% of the clamped `ing_total*coef - ptu - perdidas`; expenses and payroll do not affect it |
| `CalculoMensual.ResicoYPersonaFisicaCompartenBase` | app_web.py:277-282 | for the same figures, RESICO and individuals get the same base, the clamped `ing_total - gastos - total_nomina - ptu - perdidas`; RESICO pays 30% of it and individuals pay the default bracket table on it |
| `CalculoMensual.IsrPagarCero` | app_web.py:284 | income tax due is not negative; it is 0 exactly when provisional payments plus own withholdings cover the accrued tax, and otherwise it is the remainder |
| `CalculoMensual.IsrPagarNoCreceConPagos` | app_web.py:284 | larger provisional payments never raise the income tax due |
| `CalculoMensual.IvaPagarCero` | app_web.py:287-290 | VAT due is not negative; it is 0 exactly when earlier credit plus offsets cover the VAT balance, and otherwise it is the remainder |
| `CalculoMensual.IvaCargoPuedeSerNegativo` | app_web.py:287-290 | the VAT balance itself is not clamped: income 1000 with expenses 5000 gives a balance of -640 while VAT due is 0 |
| `CalculoMensual.IsnTresPorCiento` | app_web.py:263-264 | payroll tax is exactly 3% of the six payroll components, and changes by 3% of any change in payroll |
| `CalculoMensual.RetencionesSinTope` | app_web.py:293 | the withholdings total is the plain sum of the four amounts, with no clamp |
| `CalculoMensual.TotalesCoinciden` | app_web.py:296-327 | the grand total of the four stored totals equals the report's `isr + iva + isn + retenciones`, though the two add in different orders |
| `CalculoMensual.ResumenNoNegativo` | app_web.py:263-293 | with the non-negative figures the form accepts, all four totals and the grand total are not negative |
| `CalculoMensual.EjemploPersonaFisica` | app_web.py:278-284 | an individual with income 100000 and expenses 20000 has base 80000 and owes 5416.302496 |
| `CalculoAnual.CalcularAnual` | app_web.py:340-342 | the yearly profit, accrued tax and tax due; stated by `AnualNoNegativo`, `AnualCeros` and `AnualMonotono` |
| `CalculoAnual.AnualNoNegativo` | app_web.py:340-342 | the profit, the accrued tax and the tax due are never negative, and with payments that are not negative the tax due never exceeds the accrued tax |
| `CalculoAnual.AnualCeros` | app_web.py:340-342 | the profit is 0 exactly when deductions reach income; the tax due is 0 exactly when payments reach 30% of profit, and otherwise it is the remainder |
| `CalculoAnual.AnualMonotono` | app_web.py:340-342 | more income never lowers the tax due, and more payments never raise it |
| `Cliente.TituloCliente` | app_web.py:80 | a name of at most 40 characters is kept as is; a longer one becomes its first 40 characters plus "...", 43 in all |
| `Cliente.EtiquetaCliente` | app_web.py:156-169 | the client label; stated by `EtiquetaNoVacia` and `EtiquetaConservaDatos` |
| `Cliente.EtiquetaNoVacia` | app_web.py:156-169 | an existing client is labelled by the chosen option itself; a new client with no name gets "SIN NOMBRE"; so the label is never empty when the option is not |
| `Cliente.EtiquetaConservaDatos` | app_web.py:160-165 | a new client's label starts with the name entered; the RFC sits between " (" and ")", and the name stands alone without an RFC |

## Left out

- `float()` is not modelled. The lookup takes it as the parameter
  `parseFloat`, and a field is `None` where `float()` would raise. Python's
  number grammar is out of scope: whitespace, exponents, `inf` and `nan`.
- The default table is written out as parsed rows (`DefaultRows`). The model
  does not run the line and field split over the `TABLA_DEFAULT` literal.
- The monthly calculation always uses the default table, as the code does.
  The editable "Tabla ISR" text area is never read.
- Floating-point rounding is not modelled; all amounts are exact reals.
  - The two totals (report line and summary tab) add the same four amounts
    in different orders. They are equal over exact reals, but could differ
    in the last bit over floats.
  - `TotalesCoinciden` does not claim equality over floats, for that reason.
- The report text and its `:,.2f` formatting are not modelled; only the
  total line's value is.
- These are user interface or I/O and are not modelled:
  - the Streamlit widgets, tabs, sidebar and CSS;
  - the session-state bookkeeping (the totals are returned as a `Resumen`
    record instead);
  - `st.stop` and `st.rerun`.
- The login check is not modelled. It is a plain dictionary lookup.
- PDF generation is not modelled, apart from the title truncation. It
  includes the reportlab drawing, the image-file checks and the current
  date.
- The logo upload and its file write are not modelled.
- The worker count field is read by the form but used by no calculation.
