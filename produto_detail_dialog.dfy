/** The product detail dialog: its stock chip, its category label and which content it shows. */
module ProdutoDetailDialog {
  import opened Wrappers
  import opened Produtos
  import ControleEstoque

  /** `getEstoqueColor` and `getEstoqueLabel` together: the chip for a stock count. */
  function EstoqueChip(quantidade: int): (r: (ChipColor, string))
    ensures FaixaDe(quantidade) == Esgotado <==> r == (Error, "Esgotado")
    ensures FaixaDe(quantidade) == Baixo <==> r == (Warning, "Estoque Baixo")
    ensures FaixaDe(quantidade) == Disponivel <==> r == (Success, "Disponível")
  {
    var color := if quantidade == 0 then Error else if quantidade < 10 then Warning else Success;
    var text := if quantidade == 0 then "Esgotado" else if quantidade < 10 then "Estoque Baixo" else "Disponível";
    (color, text)
  }

  /** Colour and label never disagree: each colour comes with exactly one label. */
  lemma CorERotuloNaMesmaFaixa(a: int, b: int)
    ensures EstoqueChip(a).0 == EstoqueChip(b).0 <==> EstoqueChip(a).1 == EstoqueChip(b).1
  {
  }

  /** The dialog's chip colours every count as the inventory page's cards do. */
  lemma CorConcordaComControleEstoque(quantidade: int)
    ensures EstoqueChip(quantidade).0 == ControleEstoque.EstoqueColor(quantidade)
  {
  }

  /**
   * The dialog's own copy of the category table: the same object lookup with
   * `|| categoria` as the inventory page's, rendered here as an if-chain.
   */
  function CategoriaLabel(categoria: string): string {
    if categoria == "PIZZA" then "Pizza"
    else if categoria == "PORCAO" then "Porção"
    else if categoria == "SOBREMESA" then "Sobremesa"
    else if categoria == "PIZZA_DOCE" then "Pizza Doce"
    else if categoria == "ESFIHA" then "Esfiha"
    else if categoria == "ESFIHA_DOCE" then "Esfiha Doce"
    else if categoria == "BEBIDAS" then "Bebidas"
    else categoria
  }

  /** Both copies of `getCategoriaLabel` give the same label for every input. */
  lemma CategoriaLabelIgualAoDaPagina(categoria: string)
    ensures CategoriaLabel(categoria) == ControleEstoque.CategoriaLabel(categoria)
  {
  }

  /** What the dialog body shows. */
  datatype Conteudo = Esqueleto | Detalhes(produto: Produto) | NenhumProduto

  /** A skeleton while loading, else the product's details, else "Nenhum produto selecionado". */
  function ConteudoDe(loading: bool, produto: Option<Produto>): (c: Conteudo)
    ensures loading ==> c == Esqueleto
    ensures !loading && produto.Some? ==> c == Detalhes(produto.value)
    ensures !loading && produto.None? ==> c == NenhumProduto
  {
    if loading then Esqueleto else if produto.Some? then Detalhes(produto.value) else NenhumProduto
  }

  /** The title's stock chip: shown exactly when the details are, for the product shown. */
  function ChipDoTitulo(loading: bool, produto: Option<Produto>): (r: Option<(ChipColor, string)>)
    ensures r.Some? <==> ConteudoDe(loading, produto).Detalhes?
    ensures r.Some? ==> r.value == EstoqueChip(ConteudoDe(loading, produto).produto.quantidadeEstoque)
  {
    if !loading && produto.Some? then Some(EstoqueChip(produto.value.quantidadeEstoque)) else None
  }
}
