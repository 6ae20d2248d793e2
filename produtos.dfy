/** The product record and the stock bands shared by the cart and the inventory screens. */
module Produtos {
  import opened Wrappers

  /**
   * A product as the REST API returns it. `preco` is in integer cents;
   * `categoriaProduto` is the raw category code the server sends.
   */
  datatype Produto = Produto(
    id: int,
    nome: string,
    preco: int,
    quantidadeEstoque: int,
    ingredientes: Option<string>,
    categoriaProduto: string)

  function PrecoDe(p: Produto): int { p.preco }

  /** The seven category codes the product form offers, in its menu order. */
  const CATEGORIAS: seq<string> :=
    ["PIZZA", "PORCAO", "SOBREMESA", "PIZZA_DOCE", "ESFIHA", "ESFIHA_DOCE", "BEBIDAS"]

  /** Below this stock count a product is "low stock". */
  const LIMITE_ESTOQUE_BAIXO: int := 10

  /** The three stock bands every stock chip distinguishes. */
  datatype Faixa = Esgotado | Baixo | Disponivel

  /** The band of a stock count: exactly zero, below the limit, or at least the limit. */
  function FaixaDe(q: int): (f: Faixa)
    ensures f == Esgotado <==> q == 0
    ensures f == Baixo <==> q != 0 && q < LIMITE_ESTOQUE_BAIXO
    ensures f == Disponivel <==> q >= LIMITE_ESTOQUE_BAIXO
  {
    if q == 0 then Esgotado else if q < LIMITE_ESTOQUE_BAIXO then Baixo else Disponivel
  }

  /** The MUI colours of the stock chips: "error", "warning" and "success". */
  datatype ChipColor = Error | Warning | Success

  /** The body of a failed request's response, `err.response?.data`; a missing response has neither field. */
  datatype ErroResposta = ErroResposta(erro: Option<string>, message: Option<string>)
}
