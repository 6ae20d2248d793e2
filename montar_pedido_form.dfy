/**
 * The order-assembly screen: a transient selection (size, crust, pizza halves,
 * beverages) that is committed as one line of a cart, with the cart's display
 * list and its wire payload kept in lockstep.
 */
module MontarPedidoForm {
  import opened Wrappers
  import opened Seqs
  import opened Text
  import opened Produtos

  /** The sizes and crusts the selects offer (`getTamanhos`, `getBordas`). */
  datatype Tamanho = GRANDE | MEIO_A_MEIO
  datatype Borda = CATUPIRY | NENHUM

  /** Which half the pizza dialog was opened for (`currentPizzaSelection`). */
  datatype Metade = Primeira | Segunda

  /**
   * A committed display line (`novoPedido`). An unset size or crust (the
   * source's "") is `None`; `total` is in cents.
   */
  datatype Linha = Linha(
    id: int,
    tamanho: Option<Tamanho>,
    borda: Option<Borda>,
    pizzas: seq<Produto>,
    bebidas: seq<Produto>,
    total: int)

  /** A wire item (`novoItem`): the pizza ids, always quantity 1, size and crust. */
  datatype Item = Item(
    produto: seq<int>,
    quantidade: int,
    tamanhoPizza: Option<Tamanho>,
    bordaRecheada: Option<Borda>)

  /** The submission body; `clienteId` is filled in by a later screen. */
  datatype Payload = Payload(clienteId: Option<int>, itens: seq<Item>)

  /** `pizzas.map(pizza => pizza.id)`. */
  function Ids(ps: seq<Produto>): (r: seq<int>)
    ensures |r| == |ps|
    ensures forall i :: 0 <= i < |ps| ==> r[i] == ps[i].id
  {
    seq(|ps|, i requires 0 <= i < |ps| => ps[i].id)
  }

  /** A display line and a wire item describe the same committed order line. */
  predicate Corresponde(l: Linha, it: Item) {
    it.produto == Ids(l.pizzas) && it.quantidade == 1
    && it.tamanhoPizza == l.tamanho && it.bordaRecheada == l.borda
  }

  /** The i-th display line and the i-th wire item always belong together. */
  predicate Alinhados(ls: seq<Linha>, its: seq<Item>) {
    |ls| == |its| && forall i :: 0 <= i < |ls| ==> Corresponde(ls[i], its[i])
  }

  /** Appending a matching pair keeps the two lists aligned. */
  lemma AlinhadosAppend(ls: seq<Linha>, its: seq<Item>, l: Linha, it: Item)
    requires Alinhados(ls, its) && Corresponde(l, it)
    ensures Alinhados(ls + [l], its + [it])
  {
  }

  /** Removing the same index from both lists keeps them aligned. */
  lemma AlinhadosRemoveAt(ls: seq<Linha>, its: seq<Item>, i: nat)
    requires Alinhados(ls, its)
    ensures Alinhados(RemoveAt(ls, i), RemoveAt(its, i))
  {
  }

  /** `isSelectionEnabled`: both a size and a crust are chosen. */
  predicate SelecaoHabilitada(tamanho: Option<Tamanho>, borda: Option<Borda>) {
    tamanho.Some? && borda.Some?
  }

  /** `canAddPedido`: the selection is enabled and at least one pizza half is chosen. */
  predicate PodeAdicionar(tamanho: Option<Tamanho>, borda: Option<Borda>, pizzas: seq<Produto>) {
    SelecaoHabilitada(tamanho, borda) && |pizzas| > 0
  }

  /** `canContinue`: the cart holds at least one line. */
  predicate PodeContinuar(pedidos: seq<Linha>) {
    |pedidos| > 0
  }

  /** The selected halves after choosing `pizza` for `slot` (`handlePizzaSelect`). */
  function SelecionarMetade(pizzas: seq<Produto>, slot: Metade, pizza: Produto): (r: seq<Produto>)
    ensures slot == Primeira ==> r == [pizza]
    ensures slot == Segunda ==> |r| == |pizzas| + 1 && r[..|pizzas|] == pizzas && r[|pizzas|] == pizza
  {
    if slot == Primeira then [pizza] else pizzas + [pizza]
  }

  /** `handleRemovePizza` as written: a special case for the first of two halves, else a splice. */
  function RemoverMetade(pizzas: seq<Produto>, index: nat): seq<Produto> {
    if index == 0 && |pizzas| == 2 then [pizzas[1]] else RemoveAt(pizzas, index)
  }

  /** The two-halves special case is plain removal at the index: the second half becomes the first. */
  lemma RemoverMetadeIsRemoveAt(pizzas: seq<Produto>, index: nat)
    ensures RemoverMetade(pizzas, index) == RemoveAt(pizzas, index)
  {
    if index == 0 && |pizzas| == 2 {
      assert RemoveAt(pizzas, 0) == pizzas[1..];
    }
  }

  /** `calcularTotal`: the prices of the selected halves plus those of the selected beverages, in cents. */
  function CalcularTotal(pizzas: seq<Produto>, bebidas: seq<Produto>): int {
    Sum(pizzas, PrecoDe) + Sum(bebidas, PrecoDe)
  }

  function TotalDe(l: Linha): int { l.total }

  /** `calcularTotalPedidos`: the sum of the committed lines' totals. */
  function CalcularTotalPedidos(pedidos: seq<Linha>): int {
    Sum(pedidos, TotalDe)
  }

  /** The running total is the total of all selected products, halves and beverages together. */
  lemma CalcularTotalIsSumOfAll(pizzas: seq<Produto>, bebidas: seq<Produto>)
    ensures CalcularTotal(pizzas, bebidas) == Sum(pizzas + bebidas, PrecoDe)
  {
    SumConcat(pizzas, bebidas, PrecoDe);
  }

  /** The line committed from a selection, as `handleAddPedido` builds it. */
  function NovaLinha(id: int, tamanho: Option<Tamanho>, borda: Option<Borda>,
                     pizzas: seq<Produto>, bebidas: seq<Produto>): (l: Linha)
    ensures l.pizzas == pizzas && l.bebidas == bebidas
    ensures l.total == Sum(pizzas + bebidas, PrecoDe)
  {
    CalcularTotalIsSumOfAll(pizzas, bebidas);
    Linha(id, tamanho, borda, pizzas, bebidas, CalcularTotal(pizzas, bebidas))
  }

  /** The wire item committed from a selection; beverages are not part of it. */
  function NovoItem(tamanho: Option<Tamanho>, borda: Option<Borda>, pizzas: seq<Produto>): (it: Item)
    ensures forall id, bebidas :: Corresponde(NovaLinha(id, tamanho, borda, pizzas, bebidas), it)
  {
    Item(Ids(pizzas), 1, tamanho, borda)
  }

  predicate EhPizza(p: Produto) {
    p.categoriaProduto == "PIZZA" || p.categoriaProduto == "PIZZA_DOCE"
  }

  predicate EhSalgada(p: Produto) { p.categoriaProduto == "PIZZA" }

  predicate EhDoce(p: Produto) { p.categoriaProduto == "PIZZA_DOCE" }

  predicate EhBebida(p: Produto) { p.categoriaProduto == "BEBIDAS" }

  /** A pizza matches a normalised search term by its lower-cased name or ingredients. */
  predicate CombinaBusca(p: Produto, term: string) {
    Contains(ToLower(p.nome), term)
    || (p.ingredientes.Some? && Contains(ToLower(p.ingredientes.value), term))
  }

  /** Whether the search term lets a pizza through: a blank term lets every pizza through. */
  predicate NaBusca(p: Produto, searchTerm: string) {
    IsBlank(searchTerm) || CombinaBusca(p, Normalize(searchTerm))
  }

  /**
   * `filterPizzas`: a blank search term keeps the list as it is; otherwise
   * the order-preserving sublist of pizzas matching the lower-cased, trimmed
   * term, keeping every copy of a matching pizza.
   */
  function FilterPizzas(pizzas: seq<Produto>, searchTerm: string): (r: seq<Produto>)
    ensures IsBlank(searchTerm) ==> r == pizzas
    ensures IsSubseq(r, pizzas)
    ensures forall x :: multiset(r)[x] == if NaBusca(x, searchTerm) then multiset(pizzas)[x] else 0
    ensures !IsBlank(searchTerm) ==>
      (forall i :: 0 <= i < |r| ==> CombinaBusca(r[i], Normalize(searchTerm)))
      && (forall i :: 0 <= i < |pizzas| && CombinaBusca(pizzas[i], Normalize(searchTerm)) ==> pizzas[i] in r)
  {
    if IsBlank(searchTerm) then IsSubseqRefl(pizzas); pizzas
    else
      var term := Normalize(searchTerm);
      var combina := (p: Produto) => CombinaBusca(p, term);
      FilterMultiset(pizzas, combina);
      Filter(pizzas, combina)
  }

  /**
   * The pizzas of one kind that the search lets through: an order-preserving
   * sublist of the products with every copy of each such pizza and nothing else.
   */
  lemma {:induction false} PizzasDoTipo(produtos: seq<Produto>, tipo: Produto -> bool, searchTerm: string)
    requires forall x :: tipo(x) ==> EhPizza(x)
    ensures var r := FilterPizzas(Filter(Filter(produtos, EhPizza), tipo), searchTerm);
      && IsSubseq(r, produtos)
      && (forall x :: multiset(r)[x] == if tipo(x) && NaBusca(x, searchTerm) then multiset(produtos)[x] else 0)
      && (forall i :: 0 <= i < |r| ==> tipo(r[i]) && NaBusca(r[i], searchTerm) && r[i] in produtos)
      && (forall p | p in produtos && tipo(p) && NaBusca(p, searchTerm) :: p in r)
  {
    var pizzas := Filter(produtos, EhPizza);
    var doTipo := Filter(pizzas, tipo);
    var r := FilterPizzas(doTipo, searchTerm);
    IsSubseqTrans(doTipo, pizzas, produtos);
    IsSubseqTrans(r, doTipo, produtos);
    FilterMultiset(produtos, EhPizza);
    FilterMultiset(pizzas, tipo);
    FilteredMembers(r, produtos, (x: Produto) => tipo(x) && NaBusca(x, searchTerm));
  }

  /**
   * `pizzasSalgadas`: the catalogue's savoury pizzas that the search lets
   * through, in catalogue order, every copy kept.
   */
  function PizzasSalgadas(produtos: seq<Produto>, searchTerm: string): (r: seq<Produto>)
    ensures IsSubseq(r, produtos)
    ensures forall x :: multiset(r)[x] == if EhSalgada(x) && NaBusca(x, searchTerm) then multiset(produtos)[x] else 0
    ensures forall i :: 0 <= i < |r| ==> EhSalgada(r[i]) && NaBusca(r[i], searchTerm) && r[i] in produtos
    ensures forall p | p in produtos && EhSalgada(p) && NaBusca(p, searchTerm) :: p in r
  {
    var r := FilterPizzas(Filter(Filter(produtos, EhPizza), EhSalgada), searchTerm);
    PizzasDoTipo(produtos, EhSalgada, searchTerm);
    r
  }

  /**
   * `pizzasDoces`: the catalogue's sweet pizzas that the search lets
   * through, in catalogue order, every copy kept.
   */
  function PizzasDoces(produtos: seq<Produto>, searchTerm: string): (r: seq<Produto>)
    ensures IsSubseq(r, produtos)
    ensures forall x :: multiset(r)[x] == if EhDoce(x) && NaBusca(x, searchTerm) then multiset(produtos)[x] else 0
    ensures forall i :: 0 <= i < |r| ==> EhDoce(r[i]) && NaBusca(r[i], searchTerm) && r[i] in produtos
    ensures forall p | p in produtos && EhDoce(p) && NaBusca(p, searchTerm) :: p in r
  {
    var r := FilterPizzas(Filter(Filter(produtos, EhPizza), EhDoce), searchTerm);
    PizzasDoTipo(produtos, EhDoce, searchTerm);
    r
  }

  /** `bebidas`: every beverage of the catalogue, in catalogue order; the search term does not apply. */
  function Bebidas(produtos: seq<Produto>): (r: seq<Produto>)
    ensures IsSubseq(r, produtos)
    ensures forall x :: multiset(r)[x] == if EhBebida(x) then multiset(produtos)[x] else 0
    ensures forall i :: 0 <= i < |r| ==> EhBebida(r[i]) && r[i] in produtos
    ensures forall p | p in produtos && EhBebida(p) :: p in r
  {
    FilterMultiset(produtos, EhBebida);
    Filter(produtos, EhBebida)
  }

  /** The screen's state: the transient selection and the committed cart. */
  class Form {
    var tamanho: Option<Tamanho>
    var borda: Option<Borda>
    var currentPizzaSelection: Metade
    var tempSelectedPizzas: seq<Produto>
    var tempSelectedBebidas: seq<Produto>
    var pedidos: seq<Linha>
    var pedidoPayload: Payload
    var searchTerm: string

    /** The display list and the wire payload stay index-aligned. */
    ghost predicate Valid()
      reads this
    {
      Alinhados(pedidos, pedidoPayload.itens)
    }

    constructor()
      ensures Valid()
      ensures tamanho == None && borda == None && currentPizzaSelection == Primeira
      ensures tempSelectedPizzas == [] && tempSelectedBebidas == []
      ensures pedidos == [] && pedidoPayload == Payload(None, []) && searchTerm == ""
    {
      tamanho, borda := None, None;
      currentPizzaSelection := Primeira;
      tempSelectedPizzas, tempSelectedBebidas := [], [];
      pedidos := [];
      pedidoPayload := Payload(None, []);
      searchTerm := "";
    }

    /** The size select's `onChange`. */
    method SetTamanho(t: Tamanho)
      modifies this`tamanho
      ensures tamanho == Some(t)
    {
      tamanho := Some(t);
    }

    /** The crust select's `onChange`. */
    method SetBorda(b: Borda)
      modifies this`borda
      ensures borda == Some(b)
    {
      borda := Some(b);
    }

    /** The search field of the pizza dialog. */
    method SetSearchTerm(term: string)
      modifies this`searchTerm
      ensures searchTerm == term
    {
      searchTerm := term;
    }

    /** The "first half" and "second half" buttons: remember the slot and open the dialog. */
    method AbrirSelecaoPizza(slot: Metade)
      modifies this`currentPizzaSelection
      ensures currentPizzaSelection == slot
    {
      currentPizzaSelection := slot;
    }

    /** `handlePizzaSelect`: the first slot replaces the selection, the second appends (no cap on the count). */
    method HandlePizzaSelect(pizza: Produto)
      modifies this`tempSelectedPizzas
      ensures tempSelectedPizzas == SelecionarMetade(old(tempSelectedPizzas), currentPizzaSelection, pizza)
      ensures currentPizzaSelection == Primeira ==> tempSelectedPizzas == [pizza]
      ensures currentPizzaSelection == Segunda ==> tempSelectedPizzas == old(tempSelectedPizzas) + [pizza]
    {
      if currentPizzaSelection == Primeira {
        tempSelectedPizzas := [pizza];
      } else {
        tempSelectedPizzas := tempSelectedPizzas + [pizza];
      }
    }

    /** `handleRemovePizza`: always the same as removing the half at `index`. */
    method HandleRemovePizza(index: nat)
      modifies this`tempSelectedPizzas
      ensures tempSelectedPizzas == RemoveAt(old(tempSelectedPizzas), index)
      ensures Sum(tempSelectedPizzas, PrecoDe)
              == Sum(old(tempSelectedPizzas), PrecoDe) - (if index < |old(tempSelectedPizzas)| then old(tempSelectedPizzas)[index].preco else 0)
    {
      if index == 0 && |tempSelectedPizzas| == 2 {
        tempSelectedPizzas := [tempSelectedPizzas[1]];
      } else {
        tempSelectedPizzas := RemoveAt(tempSelectedPizzas, index);
      }
      RemoverMetadeIsRemoveAt(old(tempSelectedPizzas), index);
      if index < |old(tempSelectedPizzas)| {
        SumRemoveAt(old(tempSelectedPizzas), index, PrecoDe);
      }
    }

    /** `handleBebidaSelect`: appends exactly one beverage. */
    method HandleBebidaSelect(bebida: Produto)
      modifies this`tempSelectedBebidas
      ensures tempSelectedBebidas == old(tempSelectedBebidas) + [bebida]
      ensures CalcularTotal(tempSelectedPizzas, tempSelectedBebidas)
              == old(CalcularTotal(tempSelectedPizzas, tempSelectedBebidas)) + bebida.preco
    {
      SumAppend(tempSelectedBebidas, bebida, PrecoDe);
      tempSelectedBebidas := tempSelectedBebidas + [bebida];
    }

    /** `handleRemoveBebida`: deletes the beverage at `index`, the others keep their order. */
    method HandleRemoveBebida(index: nat)
      modifies this`tempSelectedBebidas
      ensures tempSelectedBebidas == RemoveAt(old(tempSelectedBebidas), index)
      ensures index < |old(tempSelectedBebidas)| ==>
        CalcularTotal(tempSelectedPizzas, tempSelectedBebidas)
        == old(CalcularTotal(tempSelectedPizzas, tempSelectedBebidas)) - old(tempSelectedBebidas)[index].preco
    {
      if index < |tempSelectedBebidas| {
        SumRemoveAt(tempSelectedBebidas, index, PrecoDe);
      }
      tempSelectedBebidas := RemoveAt(tempSelectedBebidas, index);
    }

    /**
     * `handleAddPedido` (the delayed part taken as one step; `id` stands for
     * `Date.now()`): one line and one matching wire item are appended, and the
     * transient selection is cleared.
     */
    method HandleAddPedido(id: int)
      requires Valid()
      modifies this`pedidos, this`pedidoPayload, this`tempSelectedPizzas,
               this`tempSelectedBebidas, this`tamanho, this`borda
      ensures Valid()
      ensures pedidos == old(pedidos) + [NovaLinha(id, old(tamanho), old(borda),
                                                   old(tempSelectedPizzas), old(tempSelectedBebidas))]
      ensures pedidoPayload.clienteId == old(pedidoPayload.clienteId)
      ensures pedidoPayload.itens == old(pedidoPayload.itens) + [NovoItem(old(tamanho), old(borda), old(tempSelectedPizzas))]
      ensures old(PodeAdicionar(tamanho, borda, tempSelectedPizzas)) ==>
        var it := pedidoPayload.itens[|pedidoPayload.itens| - 1];
        it.tamanhoPizza.Some? && it.bordaRecheada.Some? && |it.produto| > 0
      ensures tempSelectedPizzas == [] && tempSelectedBebidas == [] && tamanho == None && borda == None
      ensures !SelecaoHabilitada(tamanho, borda) && !PodeAdicionar(tamanho, borda, tempSelectedPizzas)
      ensures PodeContinuar(pedidos)
      ensures CalcularTotalPedidos(pedidos)
              == old(CalcularTotalPedidos(pedidos)) + old(CalcularTotal(tempSelectedPizzas, tempSelectedBebidas))
    {
      var novoItem := NovoItem(tamanho, borda, tempSelectedPizzas);
      var novoPedido := NovaLinha(id, tamanho, borda, tempSelectedPizzas, tempSelectedBebidas);
      AlinhadosAppend(pedidos, pedidoPayload.itens, novoPedido, novoItem);
      SumAppend(pedidos, novoPedido, TotalDe);
      pedidos := pedidos + [novoPedido];
      pedidoPayload := pedidoPayload.(itens := pedidoPayload.itens + [novoItem]);
      tempSelectedPizzas := [];
      tempSelectedBebidas := [];
      tamanho := None;
      borda := None;
    }

    /** `handleRemovePedido`: the same index leaves both the display list and the wire items. */
    method HandleRemovePedido(index: nat)
      requires Valid()
      modifies this`pedidos, this`pedidoPayload
      ensures Valid()
      ensures pedidos == RemoveAt(old(pedidos), index)
      ensures pedidoPayload == old(pedidoPayload).(itens := RemoveAt(old(pedidoPayload.itens), index))
      ensures index < |old(pedidos)| ==>
        CalcularTotalPedidos(pedidos) == old(CalcularTotalPedidos(pedidos)) - old(pedidos)[index].total
    {
      AlinhadosRemoveAt(pedidos, pedidoPayload.itens, index);
      if index < |pedidos| {
        SumRemoveAt(pedidos, index, TotalDe);
      }
      pedidos := RemoveAt(pedidos, index);
      pedidoPayload := pedidoPayload.(itens := RemoveAt(pedidoPayload.itens, index));
    }
  }
}
