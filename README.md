# Accounts-receivable backend: the row-level logic, verified

The system is a small accounts-receivable backend (`backend.py`, a Flask
application) that keeps a business's invoices and credit notes in a
spreadsheet. The Facturas sheet has nineteen columns per document. The
Clientes sheet has one row per customer. A Configuracion sheet holds
`Campo`/`Valor` pairs, and a master list holds the businesses (negocios).
Around the spreadsheet and PDF/Excel calls sits the logic that this project
models and proves things about:

- **Numbers** reads a stored amount the way `parse_number` does. It keeps
  digits, `,`, `.` and `-`. When both separators occur, the later one is the
  decimal mark; a lone comma is the decimal mark. Anything that does not
  parse gives 0.0.
- **Formato** is the cleaner inside `formato_moneda`, which keeps only the
  first `.` and a leading `-`. It also holds `limpiar_texto`, which makes
  text safe for PDFs.
- **Documents** defines the invoice and client rows. It holds the rule that
  reads the document type (FAC or NC) from characters 6-7 of the
  consecutive number. It also derives the state and the `pagado` flag a row
  is shown with.
- **Sheet** has the Facturas table as a class whose row sequence is updated
  cell by cell. On it sit a payment (`registrar_pago`) and the paired update
  of a credit note and an invoice (`compensar_documentos`).
- **Batch** is the batch import. It skips consecutive numbers already on the
  sheet, compared without leading zeros, and builds the new rows and the
  list of credit notes.
- **Sorting** is Python's stable sort by key, and the cut to the first *n*.
- **Reports** holds the weekly follow-up (overdue and due-within-a-week) and
  the overdue report.
- **Clientes** holds the per-client summaries of the PDF and Excel reports,
  and the overdue percentage.
- **PorTipo** groups pending invoices by product type.
- **Portal** is the client portal. It checks the last four digits of the
  identification, splits a client's rows into open invoices and payments,
  and sorts them, keeping ten payments.
- **Config** covers the configuration: merging saved settings over the
  existing ones, and the dashboard token/code upsert.
- **Negocios** covers editing, deleting and activating a business.

Dates are not parsed. A report takes a `Calendario`: a function from a date
cell to the whole number of days from today to that date, or None when the
cell is not a date. The month start of the Excel summary is a day number
passed in. The clock reading that makes batch ids is passed in. So is the
dashboard token that `secrets.token_hex` would draw. Amounts are exact
`real`s.

## Model

| member | source | states |
|---|---|---|
| Numbers.NormaliseSeparators | backend.py:180-188 | the normalised amount never contains a comma |
| Numbers.ParseNumber | backend.py:160-193 | the character loop computes `NumberValue`: missing/empty gives 0.0, ints and floats pass through, the filtered text goes through the separator rule and `float()`, falling back to 0.0 |
| Numbers.NoiseIgnored | backend.py:168-172 | every character other than a digit, `,`, `.` or `-` has no effect on the parsed value |
| Numbers.StripAfterFilter | backend.py:174 | the `strip()` after filtering never removes anything |
| Numbers.NormalisedAlphabet | backend.py:180-188 | after the separator rule only digits, `.` and `-` remain |
| Numbers.DecimalMarkIsLast | backend.py:180-186 | with group marks `t` and a final decimal mark `d` (`.`/`,` either way round) the rule drops every `t` and turns `d` into `.` |
| Numbers.GroupedAmountValue | backend.py:180-191 | `"1.234,56"`-style and `"1,234.56"`-style text both parse to the integer digits plus the fraction digits over a power of ten |
| Numbers.DigitsLiteral | backend.py:190-191 | digits, `.`, digits is a literal `float()` accepts, with its decimal value |
| Numbers.CleanTextValue | backend.py:174-193 | on any already-clean text, the empty text and a bare `-` included, the result is `float()` of the normalised text, or 0.0 |
| Numbers.NoDigitsExample | backend.py:176-177 | `"abc"` and `"-"` parse to 0.0 |
| Formato.CleanAmount | backend.py:866-876 | the cleaned text holds only digits, at most one `.`, and `-` only in first place |
| Formato.CleanAmountLoop | backend.py:866-876 | the `tiene_punto` loop computes `CleanAmount` |
| Formato.CleanKeepsDigits | backend.py:866-876 | cleaning keeps every digit of the input, in order |
| Formato.LaterDotDropped | backend.py:871-873 | a `.` after the first one is dropped |
| Formato.CommaDropped | backend.py:868-876 | a comma is always dropped |
| Formato.CleanAmountParses | backend.py:878 | the cleaned text is a valid literal exactly when the input has a digit |
| Formato.CleanerDisagreesWithSeparatorRule | backend.py:866-876 | on `a.b,c` the cleaner gives `a.bc` while `parse_number`'s rule gives `ab.c` |
| Formato.FormatoValue | backend.py:859-860 | an int or float passes through as itself, as `parse_number` passes it |
| Formato.FormatoOfLiteral | backend.py:878 | text whose cleaned form is a `float()` literal prints as that literal's value |
| Formato.FormatoEuropean | backend.py:862-878 | `formato_moneda` reads the digits `a.b,c` as the number `a.bc` |
| Formato.ParseEuropean | backend.py:174-193 | `parse_number` reads the same text as the number `ab.c`, so the two disagree on European amounts |
| Formato.SafeText | backend.py:891-900 | each character is kept when ASCII or a kept Spanish accent, else becomes a space; the length is unchanged |
| Formato.LimpiarTexto | backend.py:886-901 | the accumulating loop computes the stripped `SafeText` |
| Formato.LimpiarSafe | backend.py:886-901 | the result holds only PDF-safe characters and has no blank at either end |
| Formato.SafeTextOfSafe | backend.py:891-900 | safe text is left as it is |
| Formato.LimpiarIdempotent | backend.py:886-901 | cleaning twice is cleaning once |
| Documents.DetectarTipoDocumento | backend.py:245-254 | NC exactly when the text has at least 8 characters and characters 6-7 are `03`; FAC otherwise |
| Documents.TipoByPrefix | backend.py:249-252 | only the first eight characters decide the type |
| Documents.TipoExamples | backend.py:245-254 | `10000101` is FAC, `10000103` is NC, `123` is FAC |
| Documents.TipoResuelto | backend.py:514 | a stored TipoDocumento wins; a blank one is detected from the consecutive number |
| Documents.EstadoResuelto | backend.py:515-522 | a stored Estado is kept; a blank one becomes Pagado exactly when Pagado is `TRUE`, else Pendiente |
| Documents.PagadoVistaCases | backend.py:515-536 | the exposed `pagado` is true exactly when the resolved state is Pagado or Compensado, in both the stored-state and the blank-state case |
| Documents.Vista | backend.py:514-536 | the exposed row has a non-empty state and `pagado` iff that state is Pagado or Compensado |
| Documents.PendientesClienteSpec | backend.py:817-835 | exactly the client's FAC rows whose resolved state is Pendiente, all of them |
| Sheet.FindAsWritten | backend.py:725 | `ws.find`: the first row with any cell equal to the query, or none |
| Sheet.FindById | backend.py:725 | the first row whose ID equals the query, or none |
| Sheet.FindAsWrittenHitsPartner | backend.py:766-771 | after a compensation, finding the credit note's id returns the invoice row above it |
| Sheet.FindAgreesWithoutMentions | backend.py:725 | when no earlier row mentions the id, `ws.find` returns the ID row |
| Sheet.AppendNoteKeeps | backend.py:744-747 | appending a note keeps the old notes as a prefix and ends with the new note |
| Sheet.PagoEffects | backend.py:725-747 | a partial payment lowers MontoCobrar by exactly its amount and leaves Pagado/Estado; otherwise Pagado TRUE and Estado Pagado with MontoCobrar unchanged; FechaPago always written; note appended or notes untouched; identity columns unchanged |
| Sheet.PagoSettles | backend.py:736-739 | a full payment makes the row shown as paid; a partial one does not change whether it is shown as paid |
| Sheet.PartialPaymentsAdd | backend.py:730-734 | two partial payments lower MontoCobrar as much as one of their sum |
| Sheet.MontoCompensadoBounds | backend.py:782-784 | a non-zero requested amount is returned as is; zero gives the smaller of the two absolute balances |
| Sheet.MontoCompensadoExample | backend.py:782-784 | balances -150 and 200 with no amount give 150 |
| Sheet.CompensacionEffects | backend.py:786-802 | both rows end Pagado TRUE, Estado Compensado, the same FechaPago, each pointing at the other's id, MontoCobrar and identity columns unchanged, both shown as paid; every other row unchanged |
| Sheet.CompensadaNoPendiente | backend.py:797-802 | a compensated invoice no longer appears among the client's compensable invoices |
| Sheet.FacturasSheet.RegistrarPago | backend.py:718-751 | an unknown id changes nothing; otherwise only the found row changes, to `PagoRow` |
| Sheet.FacturasSheet.Marcar | backend.py:789-794 | one row gets the compensation writes |
| Sheet.FacturasSheet.CompensarDocumentos | backend.py:753-806 | a missing credit note or invoice is a 404 before any write; otherwise both rows are written and the amount is `MontoCompensado` |
| Batch.AddFacturasBatch | backend.py:611-662 | the loop builds the rows, duplicates and credit notes of `PlanUpTo` over the whole list |
| Batch.ImportarLote | backend.py:596-675 | the sheet gains exactly the new rows at its end; the answer reports their count, the duplicate count, the first ten duplicates and the credit notes |
| Batch.PlanShape | backend.py:617-662 | the new rows are the items that are not duplicates, in order; the duplicates are the others' stripped consecutivos; the credit notes are those of the new rows |
| Batch.BatchPartition | backend.py:617-654 | `count + duplicados == len(facturas)` |
| Batch.DuplicateExactly | backend.py:611-624 | an item is a duplicate exactly when its zero-stripped consecutivo is in the set read before the loop |
| Batch.WithinBatchDuplicatesKept | backend.py:611-624 | two new items with the same consecutivo are both imported |
| Batch.AllDuplicatesNoRows | backend.py:617-624 | a list of duplicates adds no row |
| Batch.ReimportAddsNothing | backend.py:611-665 | importing the same list a second time adds no row |
| Batch.NewRowsPending | backend.py:626-653 | each new row is Pagado FALSE, Estado Pendiente, no FechaPago, MontoCobrar = total − CORFOGA − otros, type detected, not shown as paid |
| Batch.NotasAreCreditNotes | backend.py:656-662 | the credit-note list holds exactly the new NC rows |
| Batch.NotasDeSpec | backend.py:656-662 | each listed credit note comes from an NC row, and every NC row is listed |
| Batch.ZFillValue | backend.py:626 | the zero-padded counter denotes the counter |
| Batch.FacturaIdInjective | backend.py:626 | same-length stamps with equal ids have equal counters |
| Batch.BatchIdsDistinct | backend.py:626 | with 14-character clock readings, the new rows of one import have distinct ids |
| Sorting.SortBy | backend.py:1134 | the sort is a permutation of its input, ordered by the key |
| Sorting.SortStable | backend.py:1134 | the sort is stable: rows with equal keys keep their order |
| Sorting.Take | backend.py:2277 | `xs[:n]` has `min(n, len)` elements, a prefix |
| Sorting.TakeKeepsFirst | backend.py:2276-2277 | the cut of a sorted list is sorted and nothing dropped comes before anything kept |
| Reports.Pendientes | backend.py:1111 | exactly the rows whose Pagado is not `TRUE` |
| Reports.DayOrders | backend.py:1134-1146 | both day orders are total preorders |
| Reports.VencidasSpec | backend.py:1115-1120 | exactly the rows due before today, each with its days overdue |
| Reports.ProximasSpec | backend.py:1121-1122 | exactly the rows due today or within seven days, each with its days left |
| Reports.Clasificar | backend.py:1115-1124 | the loop builds `Vencidas` and `Proximas`; an unparsable date goes to neither |
| Reports.ReporteSemanal | backend.py:1111-1155 | overdue rows by days overdue descending, then upcoming by days left ascending, with the pending total, count and overdue total |
| Reports.SemanalRows | backend.py:1111-1124 | a paid row, a row with no date and a row due after a week are in neither list; every other pending row is in the list its day count says |
| Reports.SemanalOrder | backend.py:1134-1146 | both lists are sorted, permutations of their inputs, and stable |
| Reports.VencidoWithinPendiente | backend.py:1126-1127 | with non-negative amounts, 0 ≤ overdue total ≤ pending total |
| Reports.AtrasadasSpec | backend.py:1277-1285 | exactly the unpaid rows due before today, with their days overdue |
| Reports.ReporteVencidas | backend.py:1277-1288 | the overdue report sorted by days descending and its total |
| Reports.AtrasadasAreVencidas | backend.py:1277-1285 | on the model's whole-day calendar, the overdue report's rows are the weekly report's overdue rows with the same day counts; the source differs for rows due today and by one day in diasAtraso (see Left out) |
| Clientes.FacturasDeSpec | backend.py:1339 | exactly the rows of the client |
| Clientes.SumarVencido | backend.py:1347-1354 | the loop sums the amounts of the rows due before today |
| Clientes.MontoVencidoBounds | backend.py:1344-1354 | with non-negative amounts, 0 ≤ overdue ≤ pending |
| Clientes.MontoVencidoNone | backend.py:1347-1354 | with nothing due, the overdue amount is 0 |
| Clientes.SaldosSpec | backend.py:1337-1363 | only positive pending amounts are listed, and every client with invoices and a positive pending amount is |
| Clientes.ResumenClientesPdf | backend.py:1333-1383 | the lines sorted by pending amount descending, the running totals equal to the sums over the lines, and the TOTAL row's invoice count |
| Clientes.LineaSaldo | backend.py:1338-1363 | a client without invoices, or whose pending amount is not positive, gets no line; any other client gets the line `SaldoDe` defines: its pending invoices, their amount and their overdue amount |
| Clientes.LineasSaldo | backend.py:1333-1365 | the loop yields exactly the listed clients' lines in sheet order (`Saldos`), and each running total is the sum of its column over them |
| Clientes.CountPendientes | backend.py:1382 | the count sums the lines' pending invoices |
| Clientes.MayorSaldoOrder | backend.py:1367 | the order is a total preorder |
| Clientes.ResumenPdfShape | backend.py:1337-1367 | the lines are positive, complete, sorted descending, and the sort keeps both totals |
| Clientes.PagadasSpec | backend.py:1883 | exactly the rows whose Pagado is `TRUE` |
| Clientes.SumarCobrado | backend.py:1898-1907 | the loop sums the paid rows paid since the month start |
| Clientes.CobradoOfPagadas | backend.py:1898-1907 | summing over the paid rows equals summing over all the client's rows |
| Clientes.MayorPendienteOrder | backend.py:1925 | the order is a total preorder |
| Clientes.CuentasSpec | backend.py:1871-1917 | every client with invoices gets a line, whatever it owes; the pending count ≤ the invoice count |
| Clientes.ResumenClientesExcel | backend.py:1863-1925 | the lines sorted by pending amount descending; `total_facturas` sums the pending counts; the other totals sum their columns |
| Clientes.LineaCuenta | backend.py:1881-1916 | a client's line is built from its rows as `CuentaDe` defines it: all its invoices, its pending ones, their pending and overdue amounts, and what its paid rows brought in this month |
| Clientes.CuentaCounts | backend.py:1910-1911 | a listed client's line counts at least one invoice and no more pending invoices than invoices |
| Clientes.PorcentajeVencido | backend.py:1972 | 0 when nothing is pending, else the fraction with pct × pending = overdue |
| Clientes.PorcentajeBounds | backend.py:1972 | with non-negative amounts the fraction is between 0 and 1 |
| Clientes.PctBounds | backend.py:1972 | a line with 0 ≤ overdue ≤ pending has a fraction between 0 and 1 |
| Clientes.ExcelCoversPdf | backend.py:1871-1917 | a client's Excel line has the PDF line's pending and overdue amounts, and the PDF lists the client exactly when the Excel pending amount is positive |
| PorTipo.Etiqueta | backend.py:1716 | the label is the product type, or `Sin especificar` for a blank one; never empty |
| PorTipo.Posicion | backend.py:1717 | the first group with the label, or the end when there is none |
| PorTipo.Buscar | backend.py:1717 | the scan finds `Posicion` |
| PorTipo.AgruparPorTipo | backend.py:1714-1720 | the loop builds `Agrupar` |
| PorTipo.AgregarFila | backend.py:1716-1720 | one row opens its label's group when the label is new, then joins that group and adds its amount to the group's total, as `Agregar` defines it |
| PorTipo.DelTipo | backend.py:1715-1719 | exactly the rows with the label |
| PorTipo.AgregarTipos | backend.py:1717-1718 | adding a row keeps every group's label and opens a group only for a new label |
| PorTipo.AgregarKeeps | backend.py:1715-1720 | adding a row to correct groups gives correct groups |
| PorTipo.AgruparCorrect | backend.py:1714-1720 | labels are distinct, each group holds exactly its label's rows in order, each total is the sum of its rows, every row has its group |
| PorTipo.TotalGeneral | backend.py:1743 | the sum of the group totals is the sum of the pending amounts |
| PorTipo.ReportePorTipo | backend.py:1711-1743 | the groups of the pending rows sorted by total descending, and the grand total |
| Portal.Ultimos4 | backend.py:2121 | `s[-4:]`: the last min(4, len) characters |
| Portal.VerificarUltimosDigitos | backend.py:2117-2121 | true exactly when the code equals the last ≤4 digits of the identification; then the code is all digits, with four of them when the identification has four |
| Portal.SeparatorsIgnored | backend.py:2119-2120 | inserting non-digit characters never changes the answer |
| Portal.CodigoUnico | backend.py:2121 | at most one code opens an identification, and it is empty when there are no digits |
| Portal.PortalIgnoresCase | backend.py:2245 | the portal treats Pagado as paid ignoring case, so `true` is paid in the portal and pending in the reports |
| Portal.PagosDe | backend.py:2244-2252 | at most one payment per row, each with an empty detail |
| Portal.AbiertasDe | backend.py:2253-2270 | at most one open item per row |
| Portal.SplitComplete | backend.py:2244-2270 | every paid row becomes a payment and every other row an open item |
| Portal.SplitPartition | backend.py:2244-2270 | payments plus open items are as many as the client's rows |
| Portal.Separar | backend.py:2239-2270 | the loop builds the open items, the payments, the pending total and the overdue total |
| Portal.PagadaExacta | backend.py:2245 | on `TRUE`/`FALSE` cells the portal and the reports agree on what is paid |
| Portal.PortalPendienteAgrees | backend.py:2253-2256 | on such cells the portal's pending total is the reports' pending total |
| Portal.PortalVencidoAgrees | backend.py:2258-2261 | on such cells the portal's overdue total is the client summaries' overdue amount |
| Portal.VencidoPortalBounds | backend.py:2255-2261 | with non-negative amounts, 0 ≤ overdue ≤ pending |
| Portal.PortalOrders | backend.py:2273-2276 | both date-text orders are total preorders |
| Portal.PorVencimiento | backend.py:2273 | the open items, permuted into ascending due-date text |
| Portal.PorFechaPago | backend.py:2276 | the payments, permuted into descending payment-date text |
| Portal.ClientePorToken | backend.py:2217-2221 | the first client with the token, or none |
| Portal.BuscarPorToken | backend.py:2217-2221 | the `for`/`break` scan finds `ClientePorToken` |
| Portal.PortalVerificar | backend.py:2204-2296 | an empty token or code is a 400; an unknown token, then a wrong code, each a failure answered with 200; otherwise the client's consultation: pending items, the last ten payments, both totals and the pending count |
| Portal.ConsultaPagos | backend.py:2276-2277 | at most ten payments, the latest ones, as a prefix of the sorted payments |
| Config.Donde | backend.py:2084 | the position of the key, or the end |
| Config.Put | backend.py:2084 | `d[k] = v` grows the dictionary only for a new key |
| Config.LookupPut | backend.py:2084 | after `d[k] = v`, `k` gives `v` and every other key what it gave before |
| Config.PutKeys | backend.py:2084 | keys stay distinct and in place; a new key goes last |
| Config.ExistenteSpec | backend.py:2079-2084 | each non-blank field appears once, with its last value; blank fields are skipped |
| Config.GuardarSpec | backend.py:2091-2093 | each of the saved fields takes the request's value or `""`; every other key is untouched |
| Config.GuardarConfig | backend.py:2078-2093 | both loops compute `ConfigGuardada` |
| Config.ConfigGuardadaSpec | backend.py:2078-2093 | the seven fields take the request's values, every other field keeps its last stored value, and keys are distinct and non-blank |
| Config.ExistenteOfDict | backend.py:2078-2084 | reading back rows with distinct non-blank keys gives the same rows |
| Config.SaveIdempotent | backend.py:2078-2100 | saving the same settings over what was written changes nothing |
| Config.ActualizarTodos | backend.py:2412-2418 | each row is updated in place: the token row takes the token, the code row the code |
| Config.GenerarAcceso | backend.py:2390-2423 | a code shorter than four characters is a 400; otherwise rows are updated in place and the missing token/code rows appended |
| Config.ConAccesoSpec | backend.py:2412-2423 | every token row holds the token and every code row the code, both exist, the original rows keep their keys, others are untouched, at most two rows are added |
| Config.ConAccesoIdempotent | backend.py:2412-2423 | upserting the same token and code again changes nothing |
| Negocios.Primero | backend.py:342-343 | the first business with the id, or none |
| Negocios.UpdateNegocio | backend.py:342-347 | the loop edits the first match and stops |
| Negocios.ActualizadoSpec | backend.py:342-347 | the list keeps its length and ids; only the first match changes, taking each field the request carries |
| Negocios.ActualizadoIdempotent | backend.py:342-347 | the same edit twice is the edit once |
| Negocios.Eliminado | backend.py:359 | exactly the businesses with another id |
| Negocios.EliminadoIdempotent | backend.py:359 | deleting twice is deleting once |
| Negocios.EliminadoAbsent | backend.py:359 | deleting an absent id keeps the list |
| Negocios.ActivarNegocio | backend.py:372-377 | the first match gives its sheet and name; no match is a 404 |
| Negocios.ActivarAfterEdits | backend.py:342-377 | a deleted id cannot be activated; after an edit with a sheet, activation gives that sheet |

## Left out

- Google Sheets access is not modelled: connection setup, `get_all_records`, `append_row(s)` and `ws.clear`. A sheet is a sequence of rows, and `update_cell` is a setter on one field of one row.
- Flask routing and `jsonify` are not modelled. An answer is `Ok(value)` or `Err(status, message)`. The 500 answers raised by exceptions are not modelled.
- PDF and Excel rendering is not modelled. The models stop at the data each report assembles.
- Time-of-day effects of `datetime.now()` are not modelled. A `Calendario` gives whole days. Python subtracts from the current instant and floors `.days`. So in the weekly report and the per-client and portal overdue sums, a row due today counts as overdue in the source and as due today in the model. The overdue report's `(hoy - fv).days` agrees with the model. The weekly report's `(fv - hoy).days` is one smaller than the model's day count, so its diasParaVencer is one smaller and its diasAtraso one larger.
- Reports.Vencidas, Reports.Proximas, Clientes.MontoVencido and Portal.VencidoPortal: the time-of-day shift described above is not captured.
- Reports.AtrasadasAreVencidas: the agreement holds only on the whole-day calendar. In the source, after midnight a pending row due today is in the weekly report's overdue list with diasAtraso 1 and absent from the overdue report, and a row due k ≥ 1 days ago has diasAtraso k+1 in the weekly report and k in the overdue report.
- The calendar function is the same for `split('T')[0]` (weekly, overdue, PDF summary, portal) and `[:10]` (Excel summary). Where the two prefixes differ, the source may parse one and reject the other; the model does not capture that.
- `float()` rounding and `"{:,.2f}"` formatting are not modelled; amounts are exact.
- Numbers.NumberValue: `str.isdigit` also accepts non-ASCII digits. The model keeps only `0`-`9`.
- Numbers.NumberValue: a literal with an exponent, `inf` or `nan` cannot arise after filtering. The model's literal grammar is digits with at most one `.` and one leading `-`. Python's `float()` also accepts underscores between digits, but filtering removes them too.
- Portal.VerificarUltimosDigitos: the same ASCII-only digit test applies.
- Text.Upper: `upper()` is modelled on ASCII letters only. It is used in the portal's paid test, where only the spelling of `TRUE` matters.
- Cells are stored as text. The `str(...)` of a numeric ID or consecutive cell is not modelled, and neither is `ws.find`'s match of numeric cells.
- `ws.find` is modelled on the data rows; the header row is not searched.
- Sheet.FacturasSheet.RegistrarPago and Sheet.FacturasSheet.CompensarDocumentos look rows up with the corrected `FindById`, not with the as-written `ws.find` of lines 725, 766 and 771. The as-written lookup is `Sheet.FindAsWritten` (see Findings).
- Sheet.PagoRow: `montoParcial` is modelled as an optional number, and `Truthy` treats 0 as absent. A JSON string such as `"0"` is truthy in Python and takes the partial-payment path of lines 730-734. The model sends an amount of 0 down the full-payment path.
- A non-numeric `montoParcial`, `montoCompensar` or batch amount makes `float()` raise, which gives a 500 answer. This is not modelled.
- The process-wide `current_sheet_id` and races between requests are not modelled. ActivarNegocio returns the sheet it would store.
- Portal.Consulta: the reply leaves out `tokenAcceso` (`secrets.token_hex(8)`, randomness) and `diasCredito` (`cliente.get('DiasCredito', 8)`, a pass-through client cell). It carries the client, both lists, both totals and `facturasPendientes`.
- `generar_token_cliente` (SHA-256) and `secrets.token_hex` are parameters. So are batch ids' clock readings.
- `add_negocio`, `get_config`, `load_negocios`/`save_negocios` and the remaining CRUD routes are not modelled. They are storage glue around the modelled list edits.
- Request fields that are not strings are not modelled in the config merge, the negocio edit or the dashboard code.
- The ledger described for this system has abonos (partial-payment records), reversals, overpayment rejection with a 0.01 tolerance, a PartiallyPaid state and aging buckets. None of these exists in `backend.py`, so none is modelled. `registrar_pago` lowers MontoCobrar by any amount without a check.
- Estado is used as stored whenever it is non-empty; the code does not check that it is a known state.
- `parse_number` keeps every `-`, not only a leading one.
- The claimed round trip `parse_number(str(parse_number(x)))` is not modelled, because float-to-text conversion is left out.
- `verificar_ultimos_digitos` compares the code exactly, with no case or format folding.
- The Excel per-client summary lists every client with invoices. Only the PDF summary requires a positive balance, and the model follows the code in both.

## Findings

| source | as written | input that shows it | evidently intended | confidence | as-written member | corrected member |
|---|---|---|---|---|---|---|
| backend.py:766-771 | `ws.find(nc_id)` / `ws.find(factura_id)` (and `ws.find(factura_id)` at line 725) return the first row with any cell equal to the id, in any column | rows `[F1 with DocumentoRelacionado N1, N1 with DocumentoRelacionado F1]` after a compensation; `find("N1")` returns the invoice row F1 | the row whose ID column holds the id | not executed; high, since a compensation writes each id into the partner's DocumentoRelacionado | Sheet.FindAsWrittenHitsPartner | Sheet.FindById |
