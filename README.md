# A verified model of the xpharma pharmacy core

xpharma is a small pharmacy application. Staff log in. They keep a stock table per medication, register patients and dispense medication against stock. They look at a dashboard of counters and pull a dispensation report. The Dafny project models the logic under the screens and the login endpoint.

The tables are in-memory sequences of records:
- medications
- stock rows
- patients
- dispensations
- system users

Every database select, insert and update is the corresponding operation on those sequences. The outcome of a remote call is a parameter of the method that makes it: whether a write succeeded, which id the backend assigned, and the answer of the login endpoint.

Modules, one per source file plus three shared ones:

| module | file | models |
|---|---|---|
| `Colecoes` | `colecoes.dfy` | `Option`, `Array.prototype.filter` (`Filtrar`), `find` (`Primeiro`), subsequences, and the counting and composition laws of filtering |
| `Texto` | `texto.dfy` | `toLowerCase` on Basic Latin and Latin-1, `includes`, and the digits of a string (`replace(/\D/g, '')`) |
| `Registros` | `registros.dfy` | the table rows, the lookups by medication id, and the two per-id stock updates |
| `Cronologia` | `cronologia.dfy` | the order of ISO-8601 timestamps (lexicographic); `order('data_dispensacao', { ascending: false })` as an insertion sort; sorting commutes with filtering |
| `Estoque` | `estoque.dfy` | `ControleEstoque.tsx`: merge-or-insert stock addition, status badge, warning icon, stock search; the screen is class `ControleEstoque` |
| `Dispensacao` | `dispensacao.dfy` | `DispensacaoMedicamentos.tsx`: CPF formatting, patient registration, the check-then-decrement dispensing, the patient and medication pickers; the screen is class `DispensacaoMedicamentos` |
| `Painel` | `painel.dfy` | `Dashboard.tsx`: low-stock and out-of-stock counters, counts since a date, the five most recent dispensations |
| `Relatorios` | `relatorios.dfy` | `RelatoriosDispensacao.tsx`: date range, text filters, clearing filters, export parameters; the screen is class `RelatoriosDispensacao` |
| `AuthUsuario` | `auth_usuario.dfy` | the login edge function as a total function from request and users table to status and body |
| `Sessao` | `sessao.dfy` | `AuthContext.tsx`: class `AuthProvider`, keeping the in-memory user and the `farmacia_usuario` storage entry in step |

The stateful parts of the components are classes. Their methods rebuild the stock list, append patients and dispensations, and reset forms. Each method's `ensures` ties the new state to a function of the old state. The properties of those functions are proved as lemmas. Every write of stock in the model keeps the stock invariants; for adding stock this holds with the corrected guard (see Findings), while the code as written can drive stock negative. `Estoque.ControleEstoque.AdicionarEstoque` states this in its own `ensures`. For the dispensing, `Dispensacao.DescontoPreservaInvariantes` proves it of the function that `RealizarDispensacao`'s `ensures` names. The invariants are:
- one row per medication;
- unique row ids;
- non-negative quantities.

Two modelling choices concern the stock table:
- The stock screen's join `medicamentos_2025_11_03_03_00(*)` is a lookup of the row's `medicamento_id` in the medications table (`Registros.MedicamentoPorId`). A missing medication makes the join absent.
- After a successful stock write the stock screen reloads the table. The model takes the reloaded table to be the written one, so the local `estoque` field is the database table itself.

## Model

| member | source | states |
|---|---|---|
| Registros.IndiceEstoque | src/components/DispensacaoMedicamentos.tsx:161 | the position found is the first stock row of the medication; `None` exactly when no row has that medication |
| Registros.MedicamentoPorId | src/components/ControleEstoque.tsx:147-148 | the joined medication is in the table and has the row's id; absent exactly when no medication has that id |
| Registros.DefinirSoMudaQuantidade | src/components/ControleEstoque.tsx:99-105 | setting a quantity by id keeps every row's id, medication, lot, expiry and minimum; only quantities change |
| Registros.DescontarSoMudaQuantidade | src/components/DispensacaoMedicamentos.tsx:193-197 | discounting by id keeps every row's id, medication, lot, expiry and minimum; only quantities change |
| Registros.DescontarComoDefinir | src/components/DispensacaoMedicamentos.tsx:183-197 | with unique ids, the absolute value written to the database (old quantity minus the dispensed one) and the subtraction applied to the local list give the same table |
| Texto.SoDigitos | src/components/DispensacaoMedicamentos.tsx:100 | the result is made of digits only, is a subsequence of the input, and is as long as the number of positions of the input holding a digit, so it is exactly the input's digits in order |
| Texto.IncluiSeOcorre | src/components/ControleEstoque.tsx:150-155 | `includes` holds exactly when the term occurs at some position of the string |
| Texto.IncluiSemCaixaVazio | src/components/ControleEstoque.tsx:150-155 | the empty term matches every string, case-insensitively |
| Cronologia.Ordenar | src/components/RelatoriosDispensacao.tsx:54 | the ordered list is a permutation of the fetched rows |
| Cronologia.OrdenarDecrescente | src/components/RelatoriosDispensacao.tsx:54 | the ordered list is most recent first |
| Cronologia.FiltrarOrdenar | src/components/RelatoriosDispensacao.tsx:54-82 | filtering the ordered list equals ordering the filtered list |
| Cronologia.FiltrarDecrescente | src/components/RelatoriosDispensacao.tsx:67-82 | the client filters keep a most-recent-first list most recent first |
| Estoque.StatusBadgeLimiares | src/components/ControleEstoque.tsx:158-166 | "Sem Estoque" iff q = 0, "Estoque Baixo" iff q ≠ 0 and q ≤ min, "Normal" iff q ≠ 0 and q > min |
| Estoque.AlertaSeNaoNormal | src/components/ControleEstoque.tsx:304 | with min ≥ 0 the warning icon shows iff the badge is not "Normal", so also for out-of-stock rows |
| Estoque.EstoquesFiltrados | src/components/ControleEstoque.tsx:146-156 | the result is a subsequence of the stock. A row is kept iff it has a joined medication whose name, code or active ingredient contains the term ignoring case |
| Estoque.BuscaVaziaMantemComMedicamento | src/components/ControleEstoque.tsx:146-156 | with an empty term a row is listed iff it has a joined medication |
| Estoque.AdicionarComoEscritoNegativa | src/components/ControleEstoque.tsx:83-122 | the guard as written accepts a quantity of -5, which turns a row of 2 into -3 |
| Estoque.AdicionarRejeitaCamposVazios | src/components/ControleEstoque.tsx:84-91 | an entry with an empty field is rejected; rejection happens exactly when the guard fails |
| Estoque.CorrecaoSoRecusaNaoPositivas | src/components/ControleEstoque.tsx:83-122 | both guards, when they pass, write the same table (`AplicarEntrada`). They give the same outcome except on filled-in entries with quantity below 1, which only the written one writes |
| Estoque.AplicarSomaNaLinhaExistente | src/components/ControleEstoque.tsx:95-107 | for any filled-in quantity (zero and negative ones included), with a row for the medication only that row changes. Its quantity grows by the entry; lot, expiry and minimum stay; length and every other row are kept |
| Estoque.AplicarInsereLinhaNova | src/components/ControleEstoque.tsx:108-119 | for any filled-in quantity, without a row one row is appended with the given medication, quantity, lot, expiry and minimum 10; the old rows stay in front |
| Estoque.AplicarPreservaUmaLinha | src/components/ControleEstoque.tsx:95-119 | for any filled-in quantity, one row per medication before implies one row per medication after |
| Estoque.AplicarPreservaIds | src/components/ControleEstoque.tsx:108-119 | for any filled-in quantity, unique row ids stay unique when the new id is unused |
| Estoque.AdicionarPreservaNaoNegativas | src/components/ControleEstoque.tsx:83-122 | with the corrected guard no quantity goes below zero |
| Estoque.ControleEstoque.constructor | src/components/ControleEstoque.tsx:34-50 | the screen starts with the loaded tables, an empty form, the dialog closed and no search |
| Estoque.ControleEstoque.PreencherEntrada | src/components/ControleEstoque.tsx:209-248 | the form takes the typed values and nothing else changes |
| Estoque.ControleEstoque.DefinirBusca | src/components/ControleEstoque.tsx:270-273 | the term is stored, nothing else changes, and the table then lists a loaded row iff its medication matches the term |
| Estoque.ControleEstoque.AdicionarEstoque | src/components/ControleEstoque.tsx:83-131 | a rejected entry or a failed write changes nothing. A success makes the table the merged-or-inserted one, resets the form and closes the dialog. The three stock invariants are preserved |
| Dispensacao.FormatarCpf | src/components/DispensacaoMedicamentos.tsx:99-102 | with eleven or more digits, the digits plus three separators: '.' at positions 3 and 7, '-' at 11. With fewer, the bare digits |
| Dispensacao.FormatarCpfPreservaDigitos | src/components/DispensacaoMedicamentos.tsx:100-101 | the formatted CPF without '.' and '-' is the input's digits, and so are its own digits |
| Dispensacao.FormatarCpfOnzeDigitos | src/components/DispensacaoMedicamentos.tsx:100-101 | eleven digits give the 14-character DDD.DDD.DDD-DD pattern with the digits in order; fewer than eleven come back bare |
| Dispensacao.FormatarCpfIdempotente | src/components/DispensacaoMedicamentos.tsx:99-102 | formatting a formatted CPF changes nothing |
| Dispensacao.FormatoCpfPontoFixo | src/components/DispensacaoMedicamentos.tsx:99-102 | a string already in the DDD.DDD.DDD-DD pattern is its own format |
| Dispensacao.BuscaPorCpfSemPontuacaoFalha | src/components/DispensacaoMedicamentos.tsx:220-223 | searching a patient by the eleven bare digits of the CPF never matches the stored formatted CPF |
| Dispensacao.UsuarioDispensacao | src/components/DispensacaoMedicamentos.tsx:178 | the recorded user is the logged-in user's full name when there is a user with a non-empty name, and "Sistema" otherwise; never empty |
| Dispensacao.VerificarDispensacao | src/components/DispensacaoMedicamentos.tsx:150-170 | a release carries the requested quantity and names the medication's first stock row, which holds at least that quantity |
| Dispensacao.VerificarDispensacaoCasos | src/components/DispensacaoMedicamentos.tsx:150-170 | the required-field rejection holds iff a field is empty. The stock rejection holds iff the fields are filled and the medication's first row does not hold the quantity, or it has no row |
| Dispensacao.DescontoSoNaLinha | src/components/DispensacaoMedicamentos.tsx:183-197 | after a release only the first row changes, to its quantity minus the dispensed one, which is ≥ 0; every other row is unchanged |
| Dispensacao.DescontoPreservaInvariantes | src/components/DispensacaoMedicamentos.tsx:163-197 | a released dispensing keeps unique row ids, one row per medication, and (with unique ids) non-negative quantities |
| Dispensacao.PacientesFiltrados | src/components/DispensacaoMedicamentos.tsx:220-223 | order-preserving subsequence. A patient is kept iff the name contains the term ignoring case or the CPF contains it exactly |
| Dispensacao.BuscaPacienteVazia | src/components/DispensacaoMedicamentos.tsx:220-223 | an empty search lists every patient |
| Dispensacao.QuantidadeEmEstoque | src/components/DispensacaoMedicamentos.tsx:226-229 | the quantity of the medication's first stock row; 0 when no row has the medication |
| Dispensacao.MedicamentosComEstoque | src/components/DispensacaoMedicamentos.tsx:225-231 | exactly the medications whose stock quantity is positive, each with that quantity, in table order |
| Dispensacao.SemLinhaNaoOferecido | src/components/DispensacaoMedicamentos.tsx:225-231 | a medication without a stock row is never offered |
| Dispensacao.EscolhaDoSeletorLiberada | src/components/DispensacaoMedicamentos.tsx:161-170 | a medication picked from the list, with at most the shown quantity, passes the stock check |
| Dispensacao.MedicamentosFiltrados | src/components/DispensacaoMedicamentos.tsx:233-236 | order-preserving subsequence. A medication is kept iff its name or active ingredient contains the term ignoring case |
| Dispensacao.DispensacaoMedicamentos.constructor | src/components/DispensacaoMedicamentos.tsx:40-97 | the screen over the loaded tables with empty forms and searches |
| Dispensacao.DispensacaoMedicamentos.DefinirBuscaPaciente | src/components/DispensacaoMedicamentos.tsx:45 | the term is stored, nothing else changes, and the picker then lists a patient iff it matches the term |
| Dispensacao.DispensacaoMedicamentos.DefinirBuscaMedicamento | src/components/DispensacaoMedicamentos.tsx:46 | the term is stored, nothing else changes, and the picker then lists a medication in stock iff it matches the term |
| Dispensacao.DispensacaoMedicamentos.PreencherDispensacao | src/components/DispensacaoMedicamentos.tsx:54-59 | the form takes the typed values and nothing else changes |
| Dispensacao.DispensacaoMedicamentos.PreencherPaciente | src/components/DispensacaoMedicamentos.tsx:47-53 | the form takes the typed values and nothing else changes |
| Dispensacao.DispensacaoMedicamentos.CadastrarPaciente | src/components/DispensacaoMedicamentos.tsx:104-135 | an empty name or CPF, or a failed insert, changes nothing. A success appends the patient with the formatted CPF, selects it, resets the form and closes it |
| Dispensacao.DispensacaoMedicamentos.RealizarDispensacao | src/components/DispensacaoMedicamentos.tsx:150-205 | each rejection has its reason and writes nothing. A failed insert writes nothing. A failed stock update leaves just the appended dispensation. A success appends one dispensation, makes the stock the old one with the first row decremented, and resets the form and the medication search |
| Dispensacao.DispensacaoMedicamentos.ConcluirDispensacao | src/components/DispensacaoMedicamentos.tsx:193-205 | the stock becomes the old one with the quantity taken off the row of that id, the form is emptied and the medication search cleared, and every other field is unchanged |
| Dispensacao.CenarioDispensacao | src/components/DispensacaoMedicamentos.tsx:161-197 | 5 units with minimum 10: dispensing 3 is released and leaves 2, which is badged low stock; after that, 3 more are refused |
| Painel.ContarEstoqueBaixo | src/components/Dashboard.tsx:79-81 | 0 without data, at most the number of rows otherwise |
| Painel.ContarSemEstoque | src/components/Dashboard.tsx:83-85 | 0 without data, at most the number of rows otherwise |
| Painel.ContagensPorPosicao | src/components/Dashboard.tsx:79-85 | the low count is the number of rows with 0 < q ≤ min; the out count is the number of rows with q = 0 |
| Painel.ContagensDisjuntas | src/components/Dashboard.tsx:79-85 | the two counts add up to at most the number of rows, and to 0 without data |
| Painel.ContagensConcordamComBadge | src/components/Dashboard.tsx:79-85 | on non-negative quantities the counters count exactly the rows badged "Estoque Baixo" and "Sem Estoque" |
| Painel.BadgeDiscordaEmNegativo | src/components/Dashboard.tsx:79-81 | a row at -1 is badged "Estoque Baixo" but not counted as low |
| Painel.ContarDesde | src/components/Dashboard.tsx:62-72 | the count is at most the number of dispensations |
| Painel.ContarDesdePorPosicao | src/components/Dashboard.tsx:62-72 | the count is the number of dispensations dated on or after the date |
| Painel.HojeNaoExcedeMes | src/components/Dashboard.tsx:49-72 | when the month starts no later than today, today's count is at most the month's |
| Painel.Recentes | src/components/Dashboard.tsx:97-105 | min(5, n) dispensations, most recent first, drawn from the table |
| Painel.RecentesSaoOsMaisNovos | src/components/Dashboard.tsx:97-105 | no dispensation left out is later than one shown |
| Relatorios.Consulta | src/components/RelatoriosDispensacao.tsx:47-63 | the fetched rows are the dispensations in the date range, most recent first |
| Relatorios.Relatorio | src/components/RelatoriosDispensacao.tsx:44-84 | the report is most recent first and is a permutation of the dispensations passing every non-empty filter |
| Relatorios.RelatorioPertence | src/components/RelatoriosDispensacao.tsx:56-82 | a dispensation is in the report iff it is in the table and passes every non-empty filter |
| Relatorios.RelatorioFiltraConsulta | src/components/RelatoriosDispensacao.tsx:63-84 | the report is the fetched list filtered by the text filters: a subsequence in fetched order |
| Relatorios.FiltrosVaziosMantemTudo | src/components/RelatoriosDispensacao.tsx:56-82 | with every field empty the report is the whole table, most recent first |
| Relatorios.InicioIncluiODia | src/components/RelatoriosDispensacao.tsx:56-58 | every dispensation made on the start day passes the lower bound |
| Relatorios.FimIncluiODia | src/components/RelatoriosDispensacao.tsx:59-61 | every dispensation of the end day up to 23:59:59 passes the upper bound |
| Relatorios.FimExcluiFracaoDeSegundo | src/components/RelatoriosDispensacao.tsx:59-61 | a dispensation at 23:59:59 followed by a decimal fraction of a second (text starting with '.') on the end day fails the upper bound |
| Relatorios.ParametrosExportacao | src/components/RelatoriosDispensacao.tsx:98-100 | `dataInicio` and `dataFim` are present iff their filters are non-empty, each once and with its value, `dataInicio` first; there are no other parameters |
| Relatorios.RelatoriosDispensacao.constructor | src/components/RelatoriosDispensacao.tsx:30-37 | an empty list and empty filters |
| Relatorios.RelatoriosDispensacao.DefinirFiltros | src/components/RelatoriosDispensacao.tsx:174-205 | the filters take the typed values; the list stays |
| Relatorios.RelatoriosDispensacao.CarregarDispensacoes | src/components/RelatoriosDispensacao.tsx:44-94 | after the optional bounds, the ordering and the optional text filters, the list is the report. A failed query keeps the old list |
| Relatorios.RelatoriosDispensacao.LimparFiltros | src/components/RelatoriosDispensacao.tsx:136-143 | all four filter fields become empty; the list stays |
| Relatorios.PeriodoPassoAPasso | src/components/RelatoriosDispensacao.tsx:56-61 | the two optional bounds applied in turn are the period filter |
| Relatorios.TextoPassoAPasso | src/components/RelatoriosDispensacao.tsx:69-82 | the two optional text filters applied in turn are their conjunction |
| AuthUsuario.SemSenhaIgnoraSenha | supabase/edge_function/auth_usuario_2025_11_03_03_00.ts:52 | the returned user does not depend on the stored password |
| AuthUsuario.SemSenhaSoEsqueceASenha | supabase/edge_function/auth_usuario_2025_11_03_03_00.ts:52 | two rows giving the same returned user differ in nothing but the password |
| AuthUsuario.Correspondentes | supabase/edge_function/auth_usuario_2025_11_03_03_00.ts:33-39 | the selected rows are rows of the table that have the given name and password and are active. Every such row is selected, one entry per matching position |
| AuthUsuario.AtenderLogin | supabase/edge_function/auth_usuario_2025_11_03_03_00.ts:9-73 | preflight → 200 with no body; unreadable body → 500; missing or empty field → 400. With both fields filled, 200 holds iff the lookup succeeds with exactly one matching position, and then the body is `success: true` with that row minus its password. Any other outcome is 401 "Usuário ou senha inválidos". Only 200/400/401/500 occur |
| AuthUsuario.CamposFaltandoNaoConsulta | supabase/edge_function/auth_usuario_2025_11_03_03_00.ts:22-30 | a missing field is answered without looking at the users table |
| AuthUsuario.SucessoTemUmaLinha | supabase/edge_function/auth_usuario_2025_11_03_03_00.ts:33-63 | a 200 answer means exactly one position of the table matches, and the returned user is that row without its password |
| AuthUsuario.DuplicadosRecusados | supabase/edge_function/auth_usuario_2025_11_03_03_00.ts:33-49 | two matching rows give 401 |
| AuthUsuario.InativoRecusado | supabase/edge_function/auth_usuario_2025_11_03_03_00.ts:33-49 | a user whose rows are all inactive gets 401, whatever the password |
| AuthUsuario.UnicaCorrespondenciaEntra | supabase/edge_function/auth_usuario_2025_11_03_03_00.ts:33-63 | when exactly one row matches the name and password, the login answers 200 with that row minus its password |
| AuthUsuario.LinhaAtivaEntra | supabase/edge_function/auth_usuario_2025_11_03_03_00.ts:33-63 | with unique user names, an active row's name and password log in, answered with that row minus its password |
| Sessao.InvocarDoEndpoint | src/contexts/AuthContext.tsx:43-49 | for any request, data reaching `login` always carries `success: true` and comes from a 200 that is not the preflight; every other answer reaches it as an error |
| Sessao.LoginPontaAPonta | src/contexts/AuthContext.tsx:41-53 | through the endpoint, a login is accepted iff the endpoint answers 200. The kept user is a matching row without its password |
| Sessao.AuthProvider.constructor | src/contexts/AuthContext.tsx:29-30 | no user and loading |
| Sessao.AuthProvider.CarregarSessao | src/contexts/AuthContext.tsx:32-39 | the user becomes the stored one if present, loading stops, and the store and the user end up in step |
| Sessao.AuthProvider.Login | src/contexts/AuthContext.tsx:41-58 | true iff the answer carries `success`. Then user and store both hold the returned user; otherwise nothing changes. The store stays in step with the user |
| Sessao.AuthProvider.Logout | src/contexts/AuthContext.tsx:60-63 | no user, the key removed, store and user in step |

## Left out

- Dates, ids and remote outcomes are parameters: `new Date()`, the ids the backend assigns, and the success or failure of each query, insert and update. Toasts, spinners and dialogs are left out, except the `dialogOpen` and `showNovoPaciente` flags.
- Timestamps are compared as ISO-8601 text. A PostgreSQL timestamp comparison, time zones and `toISOString` are not modelled.
- `parseInt` is not modelled: quantity fields are `Option<int>`, with `None` for an empty field. Non-numeric text (`NaN`) is not represented.
- `toLowerCase` is modelled for Basic Latin and Latin-1 only. Other scripts are left as they are.
- `toLocaleString`, `toLocaleDateString` and the JSON encoding of the stored user are left out; the stored user is kept as a value.
- The stock screen reloads after a write and orders by quantity (`ControleEstoque.tsx:62`). For `Estoque.ControleEstoque.AdicionarEstoque` the reloaded table is the written one, in the written order.
- The dispensation insert followed by a separate stock update is not atomic, and concurrent users can lose an update. The model runs the two writes in sequence, for one user.
- The medication picker's `Select` markup and the dispensing form's inputs lie beyond the part of `DispensacaoMedicamentos.tsx` that is modelled. The model takes their values as given (`PreencherDispensacao`). The same holds for the two search boxes, whose state is declared at lines 45-46 (`DefinirBuscaPaciente`, `DefinirBuscaMedicamento`).
- The dashboard's total counts of medications and patients (`Dashboard.tsx:52-60`) are plain row counts. They are not modelled.
- The export edge function `exportar_dispensacoes_2025_11_03_03_00.ts` is not part of this model. It builds a spreadsheet, and its date bounds repeat those of the report. `exportarPlanilha` invokes it without the parameters. The download link is the only place where `Relatorios.ParametrosExportacao` is used.
- CORS headers, the service-role client and the environment are left out. Any exception in the login endpoint is represented by an unreadable body (500).
- The menu, login form and routing files are UI only: `MainApp.tsx`, `Login.tsx` and `Index.tsx`.
- `useAuth` outside its provider, and React rendering in general, are left out.
- Estoque.ControleEstoque.AdicionarEstoque: models the corrected guard (`Estoque.EntradaAceita`, quantity at least 1). The code as written also writes quantities of 0 or below (`Estoque.AdicionarComoEscrito`); `Estoque.CorrecaoSoRecusaNaoPositivas` states exactly where the two differ.
- AuthUsuario.AtenderLogin: only strings count as a present field. JavaScript truthiness of other JSON values (numbers, booleans) is not represented.

## Findings

| source | as written | input that shows it | evidently intended | confidence | as-written member | corrected member |
|---|---|---|---|---|---|---|
| src/components/ControleEstoque.tsx:84-102 | the guard only checks that the quantity field is non-empty, and the quantity is added as parsed | a stock row holding 2 and an entry of quantity -5 for the same medication: the guard passes and the row becomes -3 | an entry of at least 1, as the quantity input's `min="1"` asks, so stock never goes negative | medium, not executed | Estoque.AdicionarComoEscritoNegativa | Estoque.AdicionarPreservaNaoNegativas |

The class method `Estoque.ControleEstoque.AdicionarEstoque` uses the corrected guard (`Estoque.EntradaAceita`). The as-written guard is `Estoque.CamposPreenchidos`, used by `Estoque.AdicionarComoEscrito`.
