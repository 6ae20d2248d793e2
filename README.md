# Pizzeria back-office core, modelled in Dafny

The repository is a React back-office for a pizzeria. It has an attendant screen that assembles
orders, a screen listing active orders with search and pagination, and an inventory screen with a product
form, product details, stock metric cards and server-side pagination. Most of the code is
markup and REST calls. This project models the rules embedded in those screens and proves what they
guarantee:

- **Order-assembly cart.** Modules `MontarPedidoForm`, and `Produtos` for the shared product record.
  - A size and a crust are picked. One or two pizza halves are selected ("primeira", "segunda"), beverages are added or removed, and a line is committed.
  - Committing appends a display line (`pedidos`) and a wire item (`pedidoPayload.itens`) together, then clears the transient selection.
  - `Form.Valid()` states that the i-th line and the i-th item correspond: the same pizza ids in order, the same size and crust, quantity 1. Every handler preserves it.
- **Active-orders search.** Module `Pedidos`.
  - A blank term keeps every order.
  - Otherwise there is a free-text mode over id, client, status and delivery type, and a per-field mode.
  - The status field first looks up aliases ("recebido", "preparo", "pronto", "entregue") in that order. The first alias that contains the term decides the match.
- **Order table pagination.** Module `PedidosTable`: 8 orders per page, a page count of at least 1, a clamp on the current page, and a search that resets to page 1.
- **Product form.** Module `ProdutoFormDialog`: per-field validators returning a message, whole-form validation building an error map in a loop, touched/blur state, reset on close, and the payload shaping on submit.
  - Module `Numeral` models the decimal-number grammar that the validators' `isNaN`/`parseFloat`/`parseInt` coercions accept.
- **Inventory metrics.**
  - `ProdutoService.CalcularMetricas` computes the total, the low-stock count and the category histogram. The histogram is an association list in first-occurrence order, like the key order of a JavaScript object.
  - `EstoqueCards` derives the four dashboard cards and the "main category" reduction from it.
- **Stock banding and labels.** Modules `ControleEstoque` and `ProdutoDetailDialog`: the colour and label bands (0, below 10, the rest), the category label maps, the mobile pager, error-message fallbacks, and the page's dialog, snackbar and loading state.
- **Inventory pagination state.** Module `UseProdutos`: class `Hook`, whose load method takes the server's answer as a parameter.

Prices are integer cents. Shared helpers live in `Wrappers` (Option, Result, Outcome), `Seqs` (filter, splice
removal, sums, clamped slice) and `Text` (trim, lower-casing, substring search, JavaScript `||` on strings).

Where the component's code and its documented intent differ, the model follows the code:

- Removing a half, a beverage or a cart line at an index past the end changes nothing, as `splice` does.
- There is no cap on the number of selected halves.
- `categoriaProduto` is only checked for emptiness, not against the category list.
- The minimum lengths of `nome` and `ingredientes` are checked on the untrimmed value, and in UTF-16 code units (`length`), so a character above U+FFFF counts twice.
- A `quantidade` of ".5" passes validation, yet its payload quantity is not a number because `parseInt(".5")` is NaN.
  `ProdutoFormDialog.QuantidadeFracionariaAceita` exhibits this.
- A payload quantity that is NaN is modelled as `None`.

## Model

| member | source | states |
|---|---|---|
| MontarPedidoForm.AlinhadosAppend | src/componente/organismo/MontarPedidoForm.jsx:213-219 | appending a line and its corresponding item to aligned lists keeps them aligned |
| MontarPedidoForm.AlinhadosRemoveAt | src/componente/organismo/MontarPedidoForm.jsx:138-150 | removing the same index from aligned lines and items keeps every remaining pair aligned |
| MontarPedidoForm.Ids | src/componente/organismo/MontarPedidoForm.jsx:192 | the id list has one entry per pizza, the i-th being the i-th pizza's id |
| MontarPedidoForm.SelecaoHabilitada | src/componente/organismo/MontarPedidoForm.jsx:72 | `isSelectionEnabled`: both a size and a crust are chosen |
| MontarPedidoForm.PodeAdicionar | src/componente/organismo/MontarPedidoForm.jsx:73 | `canAddPedido`: the selection is enabled and at least one half is chosen |
| MontarPedidoForm.PodeContinuar | src/componente/organismo/MontarPedidoForm.jsx:74 | `canContinue`: the cart holds at least one line |
| MontarPedidoForm.SelecionarMetade | src/componente/organismo/MontarPedidoForm.jsx:124-131 | slot "primeira" gives exactly `[pizza]`; slot "segunda" keeps every earlier half and appends `pizza`; no cap |
| MontarPedidoForm.RemoverMetade | src/componente/organismo/MontarPedidoForm.jsx:173-184 | `handleRemovePizza` as written: the first of two halves leaves the second alone; otherwise a splice at the index (see `RemoverMetadeIsRemoveAt`) |
| MontarPedidoForm.RemoverMetadeIsRemoveAt | src/componente/organismo/MontarPedidoForm.jsx:173-184 | the two-halves special case coincides with plain removal at the index, for every list and index |
| MontarPedidoForm.CalcularTotal | src/componente/organismo/MontarPedidoForm.jsx:234-244 | the two reduces over the halves' and beverages' prices, added (see `CalcularTotalIsSumOfAll`) |
| MontarPedidoForm.CalcularTotalPedidos | src/componente/organismo/MontarPedidoForm.jsx:246-250 | the reduce over the committed lines' totals |
| MontarPedidoForm.CalcularTotalIsSumOfAll | src/componente/organismo/MontarPedidoForm.jsx:234-244 | the running total equals the sum of prices over halves followed by beverages |
| MontarPedidoForm.NovaLinha | src/componente/organismo/MontarPedidoForm.jsx:203-210 | the committed line carries the selected halves and beverages, and its total is the sum of their prices |
| MontarPedidoForm.NovoItem | src/componente/organismo/MontarPedidoForm.jsx:192-200 | the wire item corresponds to the line built from the same selection, whatever the id and beverages: ids in order, quantity 1, same size and crust |
| Seqs.FilterMultiset | src/componente/organismo/MontarPedidoForm.jsx:98-101 | `filter` keeps every copy of each element satisfying the predicate and no copy of any other (with `IsSubseq`, this fixes the result) |
| MontarPedidoForm.FilterPizzas | src/componente/organismo/MontarPedidoForm.jsx:104-113 | a blank term returns the list unchanged; otherwise an order-preserving sublist holding every copy of each pizza whose name or ingredients contain the lowercased trimmed term, and nothing else |
| MontarPedidoForm.PizzasDoTipo | src/componente/organismo/MontarPedidoForm.jsx:98-122 | for either kind of pizza, the category filter then `filterPizzas` give an order-preserving sublist of the products with every copy of each such pizza the search lets through, and nothing else |
| MontarPedidoForm.PizzasSalgadas | src/componente/organismo/MontarPedidoForm.jsx:98-118 | an order-preserving sublist of the products holding every copy of each savoury pizza (`PIZZA`) the search lets through, and nothing else |
| MontarPedidoForm.PizzasDoces | src/componente/organismo/MontarPedidoForm.jsx:98-122 | an order-preserving sublist of the products holding every copy of each sweet pizza (`PIZZA_DOCE`) the search lets through, and nothing else |
| MontarPedidoForm.Bebidas | src/componente/organismo/MontarPedidoForm.jsx:101 | an order-preserving sublist of the products holding every copy of each beverage (`BEBIDAS`), and nothing else; the search term does not apply |
| MontarPedidoForm.Form.constructor | src/componente/organismo/MontarPedidoForm.jsx:51-70 | empty selection, slot "primeira", empty cart and payload with no client, alignment holds |
| MontarPedidoForm.Form.SetTamanho | src/componente/organismo/MontarPedidoForm.jsx:51 | sets the size and nothing else |
| MontarPedidoForm.Form.SetBorda | src/componente/organismo/MontarPedidoForm.jsx:52 | sets the crust and nothing else |
| MontarPedidoForm.Form.SetSearchTerm | src/componente/organismo/MontarPedidoForm.jsx:64 | sets the search term and nothing else |
| MontarPedidoForm.Form.AbrirSelecaoPizza | src/componente/organismo/MontarPedidoForm.jsx:59-60 | sets the slot the next pizza goes into |
| MontarPedidoForm.Form.HandlePizzaSelect | src/componente/organismo/MontarPedidoForm.jsx:124-131 | the halves become `[pizza]` in slot "primeira" and old halves plus `pizza` in slot "segunda" |
| MontarPedidoForm.Form.HandleRemovePizza | src/componente/organismo/MontarPedidoForm.jsx:173-184 | the halves become the old halves with index i removed; the pizza sum drops by exactly that half's price |
| MontarPedidoForm.Form.HandleBebidaSelect | src/componente/organismo/MontarPedidoForm.jsx:162-165 | exactly one beverage is appended and the running total grows by its price |
| MontarPedidoForm.Form.HandleRemoveBebida | src/componente/organismo/MontarPedidoForm.jsx:167-171 | the beverage at index i is removed, the rest keep their order, and the beverage sum drops by its price |
| MontarPedidoForm.Form.HandleAddPedido | src/componente/organismo/MontarPedidoForm.jsx:186-232 | one line and one corresponding item are appended and alignment is kept; `clienteId` is unchanged; the selection is cleared, so nothing can be committed until size and crust are set again; Continue becomes enabled; the cart total grows by the running total |
| MontarPedidoForm.Form.HandleRemovePedido | src/componente/organismo/MontarPedidoForm.jsx:138-155 | the same index leaves both lists; `clienteId` is unchanged; alignment is kept; the cart total drops by that line's total |
| Pedidos.TextoLivreCombina | src/componente/pages/Pedidos.jsx:57-63 | free-text mode: the id text or a lowercased client, status or delivery type contains the term |
| Pedidos.StatusCombina | src/componente/pages/Pedidos.jsx:72-87 | the first alias key containing the term decides by equality with its status; otherwise a substring match on the lowercased status |
| Pedidos.FiltroCombina | src/componente/pages/Pedidos.jsx:67-94 | one field filter: codigo, cliente, status and entrega match their field; data and unknown filters never match |
| Pedidos.Combina | src/componente/pages/Pedidos.jsx:53-96 | the predicate of the filter: free text with no field filters, some field filter otherwise, on the lowercased trimmed term |
| Pedidos.Combinam | src/componente/pages/Pedidos.jsx:56-96 | the matching orders in their order (see `CombinamIsFilter`) |
| Pedidos.FiltrarPedidos | src/componente/pages/Pedidos.jsx:47-99 | the filter effect: every order for a blank term, the matching orders otherwise (see `FiltrarPedidosSpec`) |
| Pedidos.PrimeiroAlias | src/componente/pages/Pedidos.jsx:80-84 | the index of the first alias key containing the term: no earlier key contains it, and the key found does |
| Pedidos.AlgumFiltroCombinaIff | src/componente/pages/Pedidos.jsx:66-95 | the recursive `some` over the field filters holds iff some listed filter's predicate holds |
| Pedidos.FiltrarPedidosSpec | src/componente/pages/Pedidos.jsx:47-99 | no orders give no results; a blank term keeps every order; the result is always an order-preserving subsequence; with a non-blank term it holds every copy of each order that matches the normalised term, and nothing else |
| Pedidos.CombinaModos | src/componente/pages/Pedidos.jsx:53-95 | with no filters, a match is the free-text match over id, client, status and delivery type; with filters, it is the match of at least one filter |
| Pedidos.CombinamIsFilter | src/componente/pages/Pedidos.jsx:56-95 | keeping the matching orders one by one is the array filter with the search predicate |
| Pedidos.StatusPrSelecionaEmPreparo | src/componente/pages/Pedidos.jsx:72-84 | the status term "pr" matches exactly the `EM_PREPARO` orders |
| Pedidos.StatusPrimeiroAliasVence | src/componente/pages/Pedidos.jsx:72-84 | the term "e", contained in every alias key, matches only `RECEBIDO`, the first key |
| Pedidos.StatusSemAlias | src/componente/pages/Pedidos.jsx:86 | when no alias key contains the term, the status match is a substring match on the raw status |
| Pedidos.FiltrosDesconhecidosRejeitam | src/componente/pages/Pedidos.jsx:90-93 | when no listed filter is codigo, cliente, status or entrega, no order matches the filters |
| Pedidos.FiltrosDesconhecidosNadaEncontram | src/componente/pages/Pedidos.jsx:90-93 | a non-blank search whose filters are all "data" or unknown returns no orders |
| Pedidos.Page.constructor | src/componente/pages/Pedidos.jsx:15-21 | not loading, no orders, an empty search, no error, snackbar closed |
| Pedidos.Page.CarregarPedidos | src/componente/pages/Pedidos.jsx:23-41 | success stores the data as all orders, and the filtered list becomes that data under the current search, as the filter effect runs again; failure keeps the orders, sets the error message or the default one, opens the snackbar; never loading afterwards |
| Pedidos.Page.HandleSearch | src/componente/pages/Pedidos.jsx:101-103 | stores the parameters, and the filtered list becomes the filter of all orders under them |
| Pedidos.Page.LimparFiltros | src/componente/pages/Pedidos.jsx:153-156 | clears the search, and the filtered list becomes every order |
| Pedidos.Page.HandleCloseSnackbar | src/componente/pages/Pedidos.jsx:105-107 | closes the snackbar |
| PedidosTable.TotalPages | src/componente/organismo/PedidosTable.jsx:36 | at least 1, and the least such count of 8-order pages that holds n orders (`max(1, ceil(n/8))`) |
| PedidosTable.PageSlice | src/componente/organismo/PedidosTable.jsx:6-15 | at most 8 orders, the i-th being order (page-1)*8+i; exactly 8 when that many remain |
| PedidosTable.ClampPage | src/componente/organismo/PedidosTable.jsx:17-22 | a page past the last becomes the last; any other page is unchanged |
| PedidosTable.MostraPaginacaoIff | src/componente/organismo/PedidosTable.jsx:71 | the pager is shown iff there are more than 8 orders |
| PedidosTable.JuntarPaginasDesde | src/componente/organismo/PedidosTable.jsx:12-36 | concatenating the pages from a given page to the last yields the orders from that page's start onwards |
| PedidosTable.PaginasCobremTudo | src/componente/organismo/PedidosTable.jsx:12-36 | concatenating pages 1 to the last reproduces the order list exactly |
| PedidosTable.PaginasNaoVazias | src/componente/organismo/PedidosTable.jsx:12-36 | with at least one order, every page from 1 to the last is non-empty |
| PedidosTable.Table.constructor | src/componente/organismo/PedidosTable.jsx:8-15 | starts on page 1 showing the first page's slice |
| PedidosTable.Table.Efeitos | src/componente/organismo/PedidosTable.jsx:12-22 | the page is clamped and the shown slice is that page's |
| PedidosTable.Table.SetPedidos | src/componente/organismo/PedidosTable.jsx:8-22 | new orders are stored, the page is clamped to them and the slice recomputed |
| PedidosTable.Table.HandlePageChange | src/componente/organismo/PedidosTable.jsx:24-26 | a page within range is kept; the slice shown is that of the clamped page |
| PedidosTable.Table.HandleSearch | src/componente/organismo/PedidosTable.jsx:28-34 | the page resets to 1, and the query is forwarded unchanged iff a search callback exists |
| ProdutoFormDialog.CamposCompletos | src/componente/moleculas/ProdutoFormDialog.jsx:42-48 | every form field is in the list of fields validated and touched |
| ProdutoFormDialog.FormData.With | src/componente/moleculas/ProdutoFormDialog.jsx:121-126 | updating one field changes that field only |
| Text.Utf16LengthBounds | src/componente/moleculas/ProdutoFormDialog.jsx:75 | `length` in UTF-16 code units lies between the number of characters and twice it, and equals it when no character is above U+FFFF |
| ProdutoFormDialog.CampoValido | src/componente/moleculas/ProdutoFormDialog.jsx:70-101 | what each field accepts: name and ingredients with a visible character and at least 3 and 5 UTF-16 code units, a positive price, a quantity whose integer part is not negative, any non-empty category |
| ProdutoFormDialog.ValidateField | src/componente/moleculas/ProdutoFormDialog.jsx:71-103 | the message is empty iff the value is valid for the field (lengths in UTF-16 code units, as `length` counts them); it is the required message iff the value is absent; otherwise it is the field's invalid-value message |
| ProdutoFormDialog.ZeroQuantidadeMasNaoPreco | src/componente/moleculas/ProdutoFormDialog.jsx:78-88 | "0" is a valid quantity but an invalid price |
| ProdutoFormDialog.CategoriaSemListaFechada | src/componente/moleculas/ProdutoFormDialog.jsx:96-98 | any non-empty category passes, listed or not |
| ProdutoFormDialog.NomeContadoAntesDoTrim | src/componente/moleculas/ProdutoFormDialog.jsx:73-76 | "  a" passes the minimum length although its trimmed form has one character |
| ProdutoFormDialog.NomeContadoEmUnidadesUtf16 | src/componente/moleculas/ProdutoFormDialog.jsx:75 | a name of one emoji and one letter has two characters but length 3 in UTF-16 code units, and is accepted |
| ProdutoFormDialog.QuantidadeFracionariaAceita | src/componente/moleculas/ProdutoFormDialog.jsx:84-88 | ".5" passes the quantity check, yet it has no integer part for the payload's `parseInt` (line 176) to send |
| ProdutoFormDialog.FormValido | src/componente/moleculas/ProdutoFormDialog.jsx:108-116 | the form is valid when every field passes its validator |
| ProdutoFormDialog.CollectErrors | src/componente/moleculas/ProdutoFormDialog.jsx:108-116 | the map has keys exactly for the failing fields, each holding that field's non-empty message; it is empty iff the form is valid |
| ProdutoFormDialog.PayloadOf | src/componente/moleculas/ProdutoFormDialog.jsx:173-179 | name and ingredients trimmed and non-empty; a positive price whose text is the typed one; a non-negative quantity, absent iff the typed quantity has no integer digits; the category unchanged |
| ProdutoFormDialog.Dialog.constructor | src/componente/moleculas/ProdutoFormDialog.jsx:42-51 | an empty form, no errors, nothing touched |
| ProdutoFormDialog.Dialog.SetOpen | src/componente/moleculas/ProdutoFormDialog.jsx:54-66 | closing resets form, errors and touched; opening keeps them |
| ProdutoFormDialog.Dialog.HandleChange | src/componente/moleculas/ProdutoFormDialog.jsx:121-136 | only the named field changes, and it is re-validated iff it was touched |
| ProdutoFormDialog.Dialog.HandleBlur | src/componente/moleculas/ProdutoFormDialog.jsx:141-153 | the field becomes touched and its error is its current validation message |
| ProdutoFormDialog.Dialog.ValidateForm | src/componente/moleculas/ProdutoFormDialog.jsx:108-116 | returns true iff every field is valid; the error map has keys exactly for the failing fields |
| ProdutoFormDialog.Dialog.HandleSubmit | src/componente/moleculas/ProdutoFormDialog.jsx:158-182 | every field becomes touched; the errors become exactly the failing fields, each with its `validateField` message; a payload is sent iff the form is valid, and it is the shaped payload of the form |
| Numeral.Parse | src/componente/moleculas/ProdutoFormDialog.jsx:80-86 | an accepted text yields a well-formed numeral (optional sign, digits, optional point and digits, some digit) |
| Numeral.ParseLossless | src/componente/moleculas/ProdutoFormDialog.jsx:80-86 | an accepted text is exactly the rendering of the numeral parsed from it |
| Numeral.ParseShow | src/componente/moleculas/ProdutoFormDialog.jsx:80-86 | every well-formed numeral is accepted and parsed back to itself |
| Numeral.UnsignedOfShow | src/componente/moleculas/ProdutoFormDialog.jsx:80-86 | the rendered text starts with '-' iff the numeral is negative, and what follows is its digits and point |
| Numeral.FirstPointOfShow | src/componente/moleculas/ProdutoFormDialog.jsx:80-86 | the first point in a rendered numeral is right after its integer digits |
| Numeral.ValuePositiveIff | src/componente/moleculas/ProdutoFormDialog.jsx:80 | a digit string has a positive value iff it has a non-zero digit |
| Numeral.IntegerPart | src/componente/moleculas/ProdutoFormDialog.jsx:176 | `parseInt` of the quantity: the integer part is missing (NaN) iff there are no digits before the point, and negative iff the sign is minus and some integer digit is non-zero |
| Produtos.FaixaDe | src/componente/pages/ControleEstoque.jsx:71-75 | band "esgotado" iff 0; "baixo" iff non-zero and below 10; "disponível" iff at least 10 |
| ProdutoService.IndiceDe | src/services/produtoService.js:88 | the first position of a key in the histogram, or its length when absent |
| ProdutoService.Incrementar | src/services/produtoService.js:87-89 | one step of the reduce: the category's count plus one, or a new count of 1, on the entries (see `IncrementarForma`) |
| ProdutoService.IncrementarForma | src/services/produtoService.js:87-89 | incrementing a present key adds one to its first entry only; an absent key is appended with count 1 |
| ProdutoService.IncrementarChaves | src/services/produtoService.js:87-89 | incrementing keeps keys distinct, and the keys become the old keys plus the category |
| ProdutoService.IncrementarContagens | src/services/produtoService.js:87-89 | the category's count grows by one, every other count is unchanged, and the sum of counts grows by one |
| ProdutoService.IncrementarParcelas | src/services/produtoService.js:87-89 | any sum over the entries changes by exactly the change of the one entry the increment bumps or appends |
| ProdutoService.CategoriasSpec | src/services/produtoService.js:86-90 | the histogram has distinct keys, exactly the categories present, each counting its occurrences, each at least 1, summing to the list length |
| ProdutoService.Categorias | src/services/produtoService.js:86-90 | the reduce over the products from `{}` (see `CategoriasSpec`) |
| ProdutoService.CategoriasChaves | src/services/produtoService.js:86-90 | the histogram's keys are distinct and are exactly the categories present, each with a count of at least 1 |
| ProdutoService.CategoriasContagens | src/services/produtoService.js:86-90 | each category's count is its number of products, and the counts add up to the list length |
| ProdutoService.TemCategoriaUltimo | src/services/produtoService.js:86-90 | a category is present in a list iff it is present before the last product or is the last product's |
| ProdutoService.PrimeiraPosicao | src/services/produtoService.js:86-90 | the position of a category's first product, or the list length when absent |
| ProdutoService.PrimeiraPosicaoAposAnexar | src/services/produtoService.js:86-90 | appending a product keeps every earlier first position and gives a new category the last position |
| ProdutoService.CategoriasEmOrdemDeAparicao | src/services/produtoService.js:86-90 | histogram entries appear in the order of their category's first product |
| ProdutoService.CalcularMetricas | src/services/produtoService.js:82-97 | total is the length; the low-stock count is the number of products below 10 and at most total; the histogram keys are exactly the categories present, each counted exactly and at least once, summing to total; an empty list gives zeros and an empty histogram |
| ProdutoService.BaixoEstoqueSaoOsNaoDisponiveis | src/services/produtoService.js:84 | the low-stock count is the number of products outside the "disponível" band |
| EstoqueCards.CategoriaPrincipal | src/componente/moleculas/EstoqueCards.jsx:94-102 | a non-negative count at least every entry's; count 0 gives "N/A"; a positive count is the first entry's with the maximum |
| EstoqueCards.Cards | src/componente/moleculas/EstoqueCards.jsx:90-129 | exactly four cards in the order Total, Estoque Baixo, Categoria Principal, Categorias Ativas; the third card's value is the main category's count; missing metrics default to 0, 0 and an empty histogram |
| EstoqueCards.CategoriasAtivasDeProdutos | src/componente/moleculas/EstoqueCards.jsx:123-128 | for computed metrics, "Categorias Ativas" is the number of distinct categories among the products |
| EstoqueCards.CardPrincipalDeProdutos | src/componente/moleculas/EstoqueCards.jsx:117-120 | on a product page, the "Categoria Principal" card's value is at least every category's size and is the size of some category; 0 for an empty page |
| EstoqueCards.CategoriaPrincipalDeProdutos | src/componente/moleculas/EstoqueCards.jsx:94-102 | for computed metrics, the main count is at least every category's occurrences, and for a non-empty list it is the occurrences of the main category |
| EstoqueCards.PrincipalAntesDosEmpatados | src/componente/moleculas/EstoqueCards.jsx:96-98 | the main entry comes no later than any entry that ties with it |
| EstoqueCards.CategoriaPrincipalEmpateFicaComAPrimeira | src/componente/moleculas/EstoqueCards.jsx:94-102 | among tied categories, the one whose first product comes earliest wins |
| EstoqueCards.EmpateEmCategorias | src/componente/moleculas/EstoqueCards.jsx:94-102 | on a product list's histogram, a category tied with the maximum has no earlier first product than the kept one |
| EstoqueCards.EmpateNoHistograma | src/componente/moleculas/EstoqueCards.jsx:96-98 | with distinct keys, the kept entry is at or before the entry of any category tied with it |
| EstoqueCards.OrdemDeAparicao | src/componente/moleculas/EstoqueCards.jsx:94 | a histogram entry read earlier has a category whose first product is earlier |
| EstoqueCards.ContagemUnica | src/componente/moleculas/EstoqueCards.jsx:94-95 | with distinct keys, a key's count is its entry's value, and 0 for an absent key |
| EstoqueCards.ChavesDistintasCardinalidade | src/componente/moleculas/EstoqueCards.jsx:125 | with distinct keys, the number of keys is the number of entries |
| ControleEstoque.CategoriaLabel | src/componente/pages/ControleEstoque.jsx:54-65 | the seven codes map to their non-empty labels; any other input is returned unchanged |
| ControleEstoque.CategoriaLabelConcordaComFormulario | src/componente/pages/ControleEstoque.jsx:54-65 | the label map covers exactly the form's category codes, with the same labels |
| ControleEstoque.EstoqueColor | src/componente/pages/ControleEstoque.jsx:71-75 | "error" iff band esgotado, "warning" iff band baixo, "success" iff band disponível |
| ControleEstoque.EstoqueCell | src/componente/pages/ControleEstoque.jsx:332-351 | 0 gives an error chip "Esgotado"; any other quantity below 10 a warning chip with the number; the rest a success chip with the number |
| ControleEstoque.CelulaConcordaComCard | src/componente/pages/ControleEstoque.jsx:332-351 | the table cell's colour is the mobile card's `getEstoqueColor` colour (lines 71-75) for every quantity |
| ControleEstoque.MobilePager | src/componente/pages/ControleEstoque.jsx:469-485 | "Anterior" disabled iff page 0; "Próxima" disabled iff page ≥ totalPages-1; shows page+1; an enabled button targets a page within range |
| ControleEstoque.MensagemErro | src/componente/pages/ControleEstoque.jsx:256-280 | the server's `erro` when non-empty, else its `message` when non-empty, else the default; never empty with a non-empty default |
| ControleEstoque.Page.constructor | src/componente/pages/ControleEstoque.jsx:196-210 | dialogs closed, nothing selected, not loading, snackbar closed with severity success |
| ControleEstoque.Page.ShowSnackbar | src/componente/pages/ControleEstoque.jsx:290-292 | the snackbar opens with the message and severity |
| ControleEstoque.Page.HandleCloseSnackbar | src/componente/pages/ControleEstoque.jsx:297-299 | the snackbar closes, keeping its message and severity |
| ControleEstoque.Page.HandleOpenFormDialog | src/componente/pages/ControleEstoque.jsx:215-217 | the form dialog opens |
| ControleEstoque.Page.HandleOpenDeleteDialog | src/componente/pages/ControleEstoque.jsx:241-244 | selects the product and opens the delete dialog |
| ControleEstoque.Page.HandleOpenDetailDialog | src/componente/pages/ControleEstoque.jsx:222-236 | success selects the fetched product (possibly none) with the dialog open; failure keeps the clicked product, closes the dialog, shows an error; never loading afterwards |
| ControleEstoque.Page.HandleCadastrar | src/componente/pages/ControleEstoque.jsx:249-264 | success shows the success message and closes the form; failure shows the fallback error message; `loadingAction` false afterwards |
| ControleEstoque.Page.HandleDeletar | src/componente/pages/ControleEstoque.jsx:269-285 | success shows the success message, closes the delete dialog and clears the selection; failure shows the fallback error message; `loadingAction` false afterwards |
| ProdutoDetailDialog.EstoqueChip | src/componente/moleculas/ProdutoDetailDialog.jsx:108-118 | (error, "Esgotado") iff band esgotado; (warning, "Estoque Baixo") iff band baixo; (success, "Disponível") iff band disponível |
| ProdutoDetailDialog.CorERotuloNaMesmaFaixa | src/componente/moleculas/ProdutoDetailDialog.jsx:108-118 | two quantities get the same colour iff they get the same label |
| ProdutoDetailDialog.CorConcordaComControleEstoque | src/componente/moleculas/ProdutoDetailDialog.jsx:108-112 | the dialog's colour equals the inventory page's colour for every quantity |
| ProdutoDetailDialog.CategoriaLabel | src/componente/moleculas/ProdutoDetailDialog.jsx:31-42 | the dialog's own `getCategoriaLabel`: the seven codes' labels, any other input unchanged (see `CategoriaLabelIgualAoDaPagina`) |
| ProdutoDetailDialog.CategoriaLabelIgualAoDaPagina | src/componente/moleculas/ProdutoDetailDialog.jsx:31-42 | the dialog's category label equals the inventory page's for every input |
| ProdutoDetailDialog.ConteudoDe | src/componente/moleculas/ProdutoDetailDialog.jsx:164-263 | a skeleton while loading, else the details of a present product, else "Nenhum produto selecionado" |
| ProdutoDetailDialog.ChipDoTitulo | src/componente/moleculas/ProdutoDetailDialog.jsx:145-152 | the title chip appears iff the details are shown, and is the stock chip of the shown product |
| UseProdutos.Hook.constructor | src/hooks/useProdutos.js:9-27 | no products, not loading, no error, pagination (0, 10, "id,DESC", 0, 0), zero metrics |
| UseProdutos.Hook.CarregarProdutos | src/hooks/useProdutos.js:32-62 | omitted arguments fall back to the current pagination; success copies content (or []), page data and the sort, and sets metrics from the same content; failure empties the products and sets the error, keeping pagination and metrics; never loading afterwards |
| UseProdutos.Hook.Montar | src/hooks/useProdutos.js:136-139 | the first load requests (0, 10, "id,DESC") and then leaves the state of a finished load (`Carregado`): on success the returned products, their metrics, the returned page data with the sort it asked for and no error; on failure no products, the old pagination and metrics and the error message; never loading |
| UseProdutos.Hook.MudarPagina | src/hooks/useProdutos.js:110-112 | requests the new page with the current size and sort and then leaves the state of a finished load (`Carregado`): on success the returned products, their metrics, the returned page data with the sort it asked for and no error; on failure no products, the old pagination and metrics and the error message; never loading |
| UseProdutos.Hook.MudarTamanhoPagina | src/hooks/useProdutos.js:117-119 | requests page 0 with the new size and the current sort and then leaves the state of a finished load (`Carregado`): on success the returned products, their metrics, the returned page data with the sort it asked for and no error; on failure no products, the old pagination and metrics and the error message; never loading |
| UseProdutos.Hook.MudarOrdenacao | src/hooks/useProdutos.js:124-126 | requests the current page and size with the new sort and then leaves the state of a finished load (`Carregado`): on success the returned products, their metrics, the returned page data with the sort it asked for and no error; on failure no products, the old pagination and metrics and the error message; never loading |
| UseProdutos.Hook.Recarregar | src/hooks/useProdutos.js:131-133 | requests the current page, size and sort and then leaves the state of a finished load (`Carregado`): on success the returned products, their metrics, the returned page data with the sort it asked for and no error; on failure no products, the old pagination and metrics and the error message; never loading |
| UseProdutos.Hook.CadastrarProduto | src/hooks/useProdutos.js:80-90 | a successful create reloads page 0 with the current size and sort and leaves the state of that finished load (`Carregado`); a failed one is passed on without a reload and changes nothing |
| UseProdutos.Hook.DeletarProduto | src/hooks/useProdutos.js:95-105 | a successful delete reloads the current page, size and sort and leaves the state of that finished load (`Carregado`); a failed one is passed on without a reload and changes nothing |

## Left out

- HTTP, sessions and the REST wrappers are not part of this model. A server answer, or the failure of a call, is a parameter of the handler that awaits it.
- Asynchrony and overlapping requests are left out. Each awaited call plus its state updates is one atomic step.
  - The 800 ms delay in `handleAddPedido` is one such step.
  - Success-message timeouts are left out.
- `Date.now()` ids are a parameter of `MontarPedidoForm.Form.HandleAddPedido`. Their uniqueness is not claimed.
- The states `loading`, `loadingPedido`, `successMessage`, `produtos`, `apiError` and the dialog toggles of the cart screen are left out.
  - Product loading is a fetch.
  - The rest only drive rendering.
- Rendering, MUI props, the search-field component and `formatarPreco` (Intl number formatting) are left out.
- Floating point is not modelled.
  - Prices are integer cents.
  - `toFixed(2)` is the identity on cents.
  - A typed price is kept as its decimal numeral.
- Numeral.Parse: accepts only an optional minus, digits and one optional point, with at least one digit. It does not model all of JavaScript's `isNaN` coercion: surrounding whitespace, a leading "+", exponents, hex literals and "Infinity" are rejected here.
- Text.ToLower: lower-cases ASCII and Latin-1 letters only. Full Unicode case mapping is not modelled.
- ControleEstoque.CategoriaLabel: keys inherited from the JavaScript object prototype (such as "toString") are not modelled as hits in the label map.
- ProdutoDetailDialog.CategoriaLabel: the same gap in the dialog's copy of the label map; inherited keys are treated as misses.
- ProdutoService.CalcularMetricas: a category named like an inherited key (such as "toString") starts at count 0 here, where `acc[cat] || 0` at produtoService.js line 88 would read the inherited function.
- ProdutoService.CalcularMetricas: real categories are non-numeric strings. The histogram follows first-occurrence key order, as JavaScript objects do for such keys. Integer-like keys, which JavaScript would list first, are not modelled.
- `validateField`'s default branch is unreachable: fields are the `Campo` datatype.
- Detail lookup: `buscarPorId` returns `data.produto`, which may be missing, so the fetched product is an `Option`. Other response fields (`number`, `size`, `totalPages`, `totalElements`) are assumed present.
- `useProdutos`: its callbacks capture the pagination state of the render that created them. The model reads the current state instead.
- The `buscarProduto` wrapper in `useProdutos` only forwards `buscarPorId`'s result or failure, so the detail handler receives that result directly.
