# SistemaPDV in Dafny

This is a model of the core of SistemaPDV, a browser point-of-sale app. The app keeps a
product catalogue and a sales ledger in IndexedDB. It sells from a cart on the checkout
page ("Caixa"), registers products on the product page ("Cadastro de Produtos"), and sums
the ledger up on the dashboard. The model covers four parts.

- `db.dfy` (module `Db`) models the database "ProdutoDB".
  - The class `Database` holds the object store "produtos" as a map keyed by `codigo`,
    the store "vendas" as a map keyed by an auto-incremented id, and the key generator.
  - The intended schema migration is written twice. `Upgraded` is a function on an
    `Estado` snapshot. `Database.Upgrade` is the record-by-record loop, proved to compute
    it. What the code as written does instead is `UpgradedComoEscrito` (see "## Findings").
  - The store functions are methods on the class: put, delete, `getAll` of each store,
    `add` with a fresh id, and the cursor scan over the `data` index.
- `caixa.dfy` (module `Caixa`) models the cart and checkout.
  - Each cart update (`handleSelect`, `removerDoCarrinho`, `alterarQuantidade`) is a
    function from the old cart to the new one. `calcularTotal` is a left fold.
  - `ConfirmarVenda` is a method. It writes each line's stock back to the store, records
    one sale and empties the cart.
- `cadastro.dfy` (module `Cadastro`) models product registration.
  - `Validar` is the validation; `HandleSubmit` and `HandleDeletar` write to the store
    and update the page's list.
  - The spreadsheet-row mapping of `importarDeExcel` is a function; the import is a loop
    of puts followed by a reload.
- `dashboard.dfy` (module `Dashboard`) models the dashboard.
  - `Recibos` sums revenue per payment method. `Contador` sums units sold per product
    name.
  - `Top` keeps the five best sellers, and `AlertasDeVenda` applies the "Alta Venda" rule.
- `tipos.dfy` holds the records. `string_order.dfy` holds the lexicographic order
  IndexedDB uses for string keys.

Conventions of the model:

- Prices are integer cents. Stock and quantities are `int`. The app stores both as text
  and parses them where it uses them. The import mapping takes the two parsers as
  function parameters (`centavos` for `parseFloat`, `inteiro` for `parseInt`).
- An absent `alertaEstoque` is `None`.
- The time of a sale (`new Date().toISOString()`) and the user's answer to the delete
  confirmation are parameters.

In three places the app does not do what one would expect; the model follows the code:

- `confirmarVenda` does not check stock again at commit. Each product's record becomes
  a copy of the cart line's product snapshot with that snapshot's stock minus the
  quantity, whatever the store holds by then (`Caixa.BaixasOnLine`). A cart built by
  `handleSelect` and `alterarQuantidade` never exceeds the stock it was built from
  (`Caixa.HandleSelectKeepsValid`, `Caixa.AlterarKeepsValid`). That is the only bound
  on the stock written back.
- New products are checked for a unique code and EAN
  (src/Pages/CadastroDeProdutos/index.tsx:114-117). When editing, `handleSubmit` checks
  neither, so an edit can give a product another product's EAN
  (`Cadastro.EditCanDuplicateEan` shows a concrete list). The import checks nothing
  either. What every update of the page's list does keep is unique codes
  (`Cadastro.CodigosUnicos`), and the list lemmas assume only that.
- `getVendasPorPeriodo` with `fim < inicio` gets no sales: `IDBKeyRange.bound` throws a
  `DataError` instead. The model returns `None` in exactly that case.

## Model

| member | source | states |
|---|---|---|
| Db.Backfill | src/db.ts:38-53 | the v3 step keeps every product key; a record without `alertaEstoque` gets 0, a record with it is unchanged |
| Db.BackfillIdempotent | src/db.ts:48-51 | running the v3 backfill twice gives the store one run gives |
| Db.BackfillComplete | src/db.ts:45-52 | after the backfill every record has its stock alert and no other field changed |
| Db.Passo | src/db.ts:26-55 | definition: the single step to version 1 (create "produtos"), 2 (create "vendas" and reset its key generator) or 3 (the backfill); its properties are in `Db.MigrarKeepsInvariants` and `Db.UpgradeIsMigration` |
| Db.Migrar | src/db.ts:26-55 | definition: the steps oldVersion+1 … target in ascending order; its properties are in `Db.MigrarComposes`, `Db.MigrarKeepsInvariants` and `Db.UpgradeIsMigration` |
| Db.UpgradeIsMigration | src/db.ts:24-56 | the intended upgrade from `oldVersion` equals the steps oldVersion+1 … 3 applied in ascending order |
| Db.MigrarComposes | src/db.ts:26-55 | upgrading in two stages gives what one upgrade over the whole range gives |
| Db.UpgradeFromZero | src/db.ts:26-38 | from version 0 the intended upgrade runs the steps in the order v1, v2, v3 |
| Db.UpgradeCurrentIsIdentity | src/db.ts:26-38 | with `oldVersion >= 3` the intended upgrade changes nothing |
| Db.MigrarKeepsInvariants | src/db.ts:26-36 | a migration keeps every record under its own code and every sale id below the key generator, and yields the stores of the target version |
| Db.PeriodoIsFilteredLedger | src/db.ts:102-115 | the range scan returns the same multiset of sales as filtering all sales by `inicio <= data <= fim` |
| Db.Database.Abrir | src/db.ts:17-24 | opening succeeds exactly when the stored version is at most 3; it then runs the intended migration and sets the version to 3; otherwise nothing changes |
| Db.Upgraded | src/db.ts:24-55 | below version 3, the intended upgrade, with the v3 step run in the version change transaction, leaves every product with a stock alert |
| Db.UpgradedComoEscrito | src/db.ts:24-55 | as written, `upgrade` runs the v1 and v2 steps as intended; from version 1 or later it leaves the product store exactly as it was |
| Db.AlertaFicaAusente | src/db.ts:38-52 | a product from version 1 or 2 without `alertaEstoque` still lacks it after the upgrade as written; the intended step gives it 0 |
| Db.ComoEscritoDifere | src/db.ts:38-52 | some well-formed version 2 database comes out of the upgrade as written differently from the intended migration |
| Db.Database.Upgrade | src/db.ts:24-56 | the intended record loop over the keys of "produtos" leaves the database equal to `Upgraded` of the old state |
| Db.Database.PreencherAlertas | src/db.ts:38-55 | the loop over the keys leaves "produtos" equal to `Backfill` of the old store, every record still under its own code |
| Db.Database.AddProduto | src/db.ts:61-66 | put is last-write-wins on `codigo`; every other key is unchanged |
| Db.Database.UpdateProduto | src/db.ts:80-85 | the same put as `addProduto` |
| Db.Database.DeleteProduto | src/db.ts:73-78 | removes key `codigo` and only it; an absent key leaves the store unchanged |
| Db.Database.GetProdutos | src/db.ts:68-71 | returns every stored product once, in ascending `codigo` order |
| Db.Database.AddVenda | src/db.ts:89-95 | the new id was not in the ledger, is greater than every earlier id, and maps to the sale; earlier sales are unchanged |
| Db.Database.GetVendas | src/db.ts:97-100 | returns every sale once, in ascending id order; a sale is returned exactly when it is in the ledger |
| Db.Database.GetVendasPorPeriodo | src/db.ts:102-115 | with `inicio <= fim`, returns exactly the sales with `inicio <= data <= fim`, each once, in index order (date, then id), so dates never decrease; with `fim < inicio` it fails |
| Caixa.Find | src/Pages/Caixa/index.tsx:57 | finds the first line with the code, or reports that no line has it |
| Caixa.Incrementar | src/Pages/Caixa/index.tsx:64-68 | definition: the `prev.map` that adds one unit to the lines with the code; its properties are in the last ensures of `Caixa.HandleSelect` and in `Caixa.HandleSelectTotal` |
| Caixa.HandleSelect | src/Pages/Caixa/index.tsx:48-75 | no stock: cart unchanged; a new product is appended with quantity 1; one more unit over the stock: cart unchanged; otherwise only that line grows by one, in place |
| Caixa.HandleSelectTotal | src/Pages/Caixa/index.tsx:56-72 | an accepted selection raises the total by the product's price; a refused one leaves it |
| Caixa.HandleSelectKeepsValid | src/Pages/Caixa/index.tsx:56-72 | selection keeps codes unique and each quantity in [1, estoque] |
| Caixa.RemoverDoCarrinho | src/Pages/Caixa/index.tsx:77-78 | definition: `prev.filter` on the code; its properties are in `Caixa.RemoverMembership`, `Caixa.RemoverDeletesLine`, `Caixa.RemoverAbsent` and `Caixa.RemoverKeepsValid` |
| Caixa.RemoverMembership | src/Pages/Caixa/index.tsx:77-78 | a line remains exactly when it was in the cart and its code differs, and the cart does not grow |
| Caixa.RemoverDeletesLine | src/Pages/Caixa/index.tsx:77-78 | with unique codes, removal deletes exactly the code's line and keeps the rest in order |
| Caixa.RemoverAbsent | src/Pages/Caixa/index.tsx:77-78 | removing a code no line has leaves the cart as it is |
| Caixa.RemoverKeepsValid | src/Pages/Caixa/index.tsx:77-78 | removal keeps codes unique and quantities in range |
| Caixa.AlterarQuantidade | src/Pages/Caixa/index.tsx:80-93 | the line's quantity becomes min(max(q, 1), estoque), in [1, estoque] when estoque >= 1; other lines and the length are unchanged |
| Caixa.AlterarKeepsValid | src/Pages/Caixa/index.tsx:80-93 | changing a quantity keeps codes unique and quantities in range |
| Caixa.CalcularTotal | src/Pages/Caixa/index.tsx:95-99 | the total of an empty cart is 0, and it is non-negative when prices and quantities are |
| Caixa.TotalConcat | src/Pages/Caixa/index.tsx:95-99 | the total of a cart is the sum of the totals of its parts, so it is the sum of price × quantity over the lines |
| Caixa.TotalOneMore | src/Pages/Caixa/index.tsx:95-99 | one more unit on a line adds that line's price to the total |
| Caixa.Baixa | src/Pages/Caixa/index.tsx:167-177 | the written record keeps the line's code, with the line's stock minus the quantity |
| Caixa.AplicarBaixas | src/Pages/Caixa/index.tsx:171-178 | definition: one `updateProduto` per cart line, in cart order; its properties are in `Caixa.BaixasSkipOthers` and `Caixa.BaixasOnLine` |
| Caixa.BaixasSkipOthers | src/Pages/Caixa/index.tsx:171-178 | products on no cart line keep their record |
| Caixa.BaixasOnLine | src/Pages/Caixa/index.tsx:167-178 | each cart product ends with the line's stock minus the quantity, which is non-negative for a valid cart |
| Caixa.AtualizarLista | src/Pages/Caixa/index.tsx:179-184 | in the page's list, a product on a line gets the first such line's stock minus quantity; others are unchanged |
| Caixa.ConfirmarVenda | src/Pages/Caixa/index.tsx:165-209 | the store ends with the stock updates applied, one sale with the cart, its total and the payment appended under a fresh id, and the cart empty |
| Cadastro.Ean13 | src/Pages/CadastroDeProdutos/index.tsx:112 | definition: the test `/^\d{13}$/`, exactly thirteen ASCII digits; used by `Cadastro.Validar` |
| Cadastro.Validar | src/Pages/CadastroDeProdutos/index.tsx:111-118 | a submission passes exactly when the EAN is 13 digits and, when not editing, neither its code nor its EAN is in the list; a duplicate EAN message wins over a format message |
| Cadastro.Normalizar | src/Pages/CadastroDeProdutos/index.tsx:123-126 | an empty category becomes "SEM CATEGORIA", any other is kept, and no other field changes |
| Cadastro.Excluir | src/Pages/CadastroDeProdutos/index.tsx:142 | definition: `prev.filter` on the code; its properties are in `Cadastro.ExcluirMembership`, `Cadastro.ExcluirDeletesEntry`, `Cadastro.ExcluirAbsent` and `Cadastro.ExcluirKeepsCodigosUnicos` |
| Cadastro.ExcluirMembership | src/Pages/CadastroDeProdutos/index.tsx:142 | an entry remains exactly when it was listed and its code differs, and the list does not grow |
| Cadastro.Editar | src/Pages/CadastroDeProdutos/index.tsx:129-131 | definition: the `prev.map` that swaps in the saved product for the entries with its code; its properties are in `Cadastro.EditarReplacesEntry`, `Cadastro.EditarAbsent` and `Cadastro.EditarKeepsCodigosUnicos` |
| Cadastro.EditarReplacesEntry | src/Pages/CadastroDeProdutos/index.tsx:129-131 | with unique codes, an edit replaces the entry with the same code and nothing else |
| Cadastro.EditarKeepsCodigosUnicos | src/Pages/CadastroDeProdutos/index.tsx:129-131 | an edit keeps codes unique |
| Cadastro.AddKeepsCodigosUnicos | src/Pages/CadastroDeProdutos/index.tsx:114-134 | appending a new product that passed the checks keeps codes unique, whatever EANs the list repeats |
| Cadastro.ExcluirKeepsCodigosUnicos | src/Pages/CadastroDeProdutos/index.tsx:142 | deletion keeps codes unique |
| Cadastro.EditarAbsent | src/Pages/CadastroDeProdutos/index.tsx:129-131 | an edit whose code is not in the list leaves the list as it is |
| Cadastro.AddKeepsUnique | src/Pages/CadastroDeProdutos/index.tsx:114-134 | appending a product that passed the checks keeps codes and EANs unique |
| Cadastro.EditCanDuplicateEan | src/Pages/CadastroDeProdutos/index.tsx:114-117 | a list with unique EANs and an accepted edit exist whose result repeats an EAN |
| Cadastro.ExcluirDeletesEntry | src/Pages/CadastroDeProdutos/index.tsx:139-142 | with unique codes, deletion removes exactly the code's entry and keeps the rest in order |
| Cadastro.ExcluirAbsent | src/Pages/CadastroDeProdutos/index.tsx:139-142 | deleting a code no entry has leaves the list as it is |
| Cadastro.HandleSubmit | src/Pages/CadastroDeProdutos/index.tsx:109-137 | the errors are those of `Validar`; a rejected submission writes nothing and keeps the list; an accepted one puts the normalised product and replaces (edit) or appends (new); a list with unique codes keeps them |
| Cadastro.HandleDeletar | src/Pages/CadastroDeProdutos/index.tsx:139-143 | without confirmation nothing changes; with it the key leaves the store and its entries leave the list; a list with unique codes keeps them |
| Cadastro.Ou | src/Pages/CadastroDeProdutos/index.tsx:172-178 | a cell takes the sheet header's value, else the field name's value, else the default |
| Cadastro.LinhaParaProduto | src/Pages/CadastroDeProdutos/index.tsx:171-179 | definition: the row mapping, each field through `Cadastro.Ou`; its defaults are in `Cadastro.ImportDefaults` |
| Cadastro.ImportDefaults | src/Pages/CadastroDeProdutos/index.tsx:171-179 | missing columns give "" for code, name, EAN and category and "0" for prices and stock; no stock alert is set |
| Cadastro.PutAll | src/Pages/CadastroDeProdutos/index.tsx:180 | definition: one `addProduto` per mapped row, in order; its properties are in `Cadastro.PutAllLastWins` and `Cadastro.PutAllSkips` |
| Cadastro.PutAllLastWins | src/Pages/CadastroDeProdutos/index.tsx:180 | the last imported row with a code decides its record |
| Cadastro.PutAllSkips | src/Pages/CadastroDeProdutos/index.tsx:180 | codes on no imported row keep their record |
| Cadastro.ImportarDeExcel | src/Pages/CadastroDeProdutos/index.tsx:170-182 | the store gets one put per mapped row in order, and the list is the reloaded store, in ascending code order, so with unique codes |
| Dashboard.Recibos | src/Pages/DashBoard/index.tsx:78-85 | the breakdown has exactly the keys Dinheiro, Cartão and PIX, each the sum of `total` over the sales paid that way |
| Dashboard.ReceitaPartition | src/Pages/DashBoard/index.tsx:83-85 | the three methods' revenues add up to the revenue of all sales |
| Dashboard.Pagamentos | src/Pages/DashBoard/index.tsx:86-91 | the chart data has one entry per method with its value from the breakdown |
| Dashboard.ContarItens | src/Pages/DashBoard/index.tsx:96-98 | one sale's lines add each line's quantity under its name |
| Dashboard.Contador | src/Pages/DashBoard/index.tsx:94-99 | the counter's keys are exactly the names sold, each value the units sold under that name; the key order is `PrimeiraVez`, the order in which names first appear over the sales and their lines |
| Dashboard.PrimeiraVezMembership | src/Pages/DashBoard/index.tsx:94-99 | the first-appearance order lists every name sold exactly once, and nothing else |
| Dashboard.PrimeiraVezPrefix | src/Pages/DashBoard/index.tsx:95-99 | the order for the earlier sales is a prefix of the order for all of them: keys written earlier stay first |
| Dashboard.NomesMembership | src/Pages/DashBoard/index.tsx:95-97 | a name is counted exactly when some line of some sale carries it |
| Dashboard.QtdVendidaAbsent | src/Pages/DashBoard/index.tsx:97 | a name on no line counts 0, which is the `|| 0` fallback |
| Dashboard.Entradas | src/Pages/DashBoard/index.tsx:100-101 | one entry per counted name, with its count |
| Dashboard.Inserir | src/Pages/DashBoard/index.tsx:102 | definition: one step of a stable insertion sort by descending quantity; its properties are in `Dashboard.InserirPermutes` and `Dashboard.InserirKeepsOrder` |
| Dashboard.Ordenar | src/Pages/DashBoard/index.tsx:102 | definition: `.sort((a, b) => b.quantidade - a.quantidade)` as a stable insertion sort; its properties are in `Dashboard.OrdenarCorrect` |
| Dashboard.InserirPermutes | src/Pages/DashBoard/index.tsx:102 | one insertion step adds exactly the inserted entry |
| Dashboard.InserirKeepsOrder | src/Pages/DashBoard/index.tsx:102 | one insertion step keeps the list in non-increasing quantity |
| Dashboard.OrdenarCorrect | src/Pages/DashBoard/index.tsx:102 | the sort is a permutation of the entries, in non-increasing quantity |
| Dashboard.Top | src/Pages/DashBoard/index.tsx:100-103 | definition: the sorted entries, first min(5, n) kept by `.slice(0, 5)`; its properties are in `Dashboard.TopCorrect`, `Dashboard.TopDominatesCounter` and `Dashboard.AltaVendaIff` |
| Dashboard.TopCorrect | src/Pages/DashBoard/index.tsx:100-103 | `top` has min(5, n) entries taken from the input, non-increasing, each selling at least as much as every entry left out |
| Dashboard.TopDominatesCounter | src/Pages/DashBoard/index.tsx:94-103 | a counted name not in `top` sold no more than any entry of `top` |
| Dashboard.AlertasDeVenda | src/Pages/DashBoard/index.tsx:124-130 | exactly one "Alta Venda" info alert is pushed when `top` is non-empty and its first entry sold more than 100; otherwise none |
| Dashboard.AltaVendaIff | src/Pages/DashBoard/index.tsx:100-130 | the alert fires exactly when some counted product sold more than 100 units |

## Left out

- IndexedDB transactions, `tx.done`, the `idb` wrapper and all `async` ordering are not modelled. Each store call is one sequential update of a map.
- The concurrent `Promise.all` in `confirmarVenda` is modelled as puts in cart order. Since cart codes are unique, the order does not change the result.
- Db.Database.Upgrade models the intended record loop, which is what the rest of the model uses. As written, the v3 branch throws before touching any record; see "## Findings" and `Db.UpgradedComoEscrito`.
- Db.Database.Abrir: opening a database whose version is newer than 3 fails in IndexedDB with a `VersionError`. The model returns `false` and changes nothing, without the error's details. Opening runs the intended migration (`Db.Database.Upgrade`), not the as-written one, where the v3 step backfills nothing (`Db.UpgradedComoEscrito`).
- String keys follow Dafny's `char` order. IndexedDB compares UTF-16 code units, which agrees on the ASCII and Latin text the app stores.
- Dashboard.Contador: `ordem` is the order keys were first written. `Object.entries` lists integer-like keys first, in numeric order, so ties among such names in `top` may come out in another order. Names that `Object.prototype` already has are not modelled: `__proto__` would not become a key, and for `constructor`, `toString`, `valueOf`, `hasOwnProperty` and the like, `contador[i.nome] || 0` reads the inherited function, so the count becomes a string. The model counts every name as a number.
- Dashboard.OrdenarCorrect: the sort is stable, like `Array.prototype.sort`, but stability is not stated.
- Float and text formatting is left out: `parseFloat`, `toFixed`, `calcularLucro`, `NaN` from either parser, and the float sums of prices. Prices are integer cents.
- The receipt HTML (`gerarCupom`), `window.open`/`print`, the scanner beep, `alert`, focus handling and all React state plumbing are left out.
- The spreadsheet file handling (`XLSX`, `FileReader`, export) is left out. Every cell is taken as text. `sheet_to_json` gives numbers for numeric cells, and a numeric 0 is falsy under `||`: a `Código` cell holding 0 gives "" in the app, while the model reads the text "0" and keeps "0". The same holds for the other columns.
- The dashboard's 7-day `vendasDiarias` series and the "Baixa de Vendas" alert are left out. They depend on dates and a float average.
- `iniciarFinalizacao` (the empty-cart guard before checkout) and the page routing and styles are not part of this model.
- Editing a product can change its `codigo`. The model then puts the new key and leaves the old one, as the code does. If no entry has the new code, the page's list is left unchanged (`Cadastro.EditarAbsent`). If another product already has it, the put overwrites that product's record and the list replaces that product's entry with the edited one (`Cadastro.EditarReplacesEntry`), while the old entry stays.
- Caixa.HandleSelect takes the selected product itself. The early return of `handleSelect` on a cleared select (`if (!option) return;`, src/Pages/Caixa/index.tsx:49) is not modelled; it leaves the cart as it is.
- The record `confirmarVenda` writes is an `ItemCarrinho` spread, so it also carries a `quantidade` field. The model writes only the product fields.

## Findings

| source | as written | input that shows it | evidently intended | confidence | as-written member | corrected member |
|---|---|---|---|---|---|---|
| src/db.ts:38-52 | the v3 branch of `upgrade` calls `database.transaction`, which IndexedDB refuses during a version change; `openDB` does not wait for the `async` callback, so the database opens at version 3 with no record backfilled | a database at version 1 or 2 holding a product without `alertaEstoque` | every such product gets `alertaEstoque` 0 (`Db.Upgraded`, `Db.BackfillComplete`), through the version change transaction itself, as `Db.Database.PreencherAlertas` does | high, not executed | Db.UpgradedComoEscrito, Db.AlertaFicaAusente, Db.ComoEscritoDifere | Db.Upgraded |
