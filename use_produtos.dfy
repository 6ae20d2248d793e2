/**
 * The inventory hook: the current page of products, its pagination, the
 * metrics computed from it, and the actions that reload it. Every load is
 * one step taken on the server's answer, which is passed in.
 */
module UseProdutos {
  import opened Wrappers
  import opened Text
  import opened Produtos
  import opened ProdutoService

  /** `paginacao`: the 0-based page, the page size, the sort key and the server's totals. */
  datatype Paginacao = Paginacao(page: int, size: int, sort: string, totalPages: int, totalElements: int)

  const PAGINACAO_INICIAL := Paginacao(0, 10, "id,DESC", 0, 0)

  const METRICAS_INICIAIS := Metricas(0, 0, [])

  /** A page of the product listing as the server answers it; `content` may be missing. */
  datatype PaginaResposta = PaginaResposta(
    content: Option<seq<Produto>>, number: int, size: int, totalPages: int, totalElements: int)

  /** The page, size and sort a load asks the server for. */
  datatype Requisicao = Requisicao(page: int, size: int, sort: string)

  class Hook {
    var produtos: seq<Produto>
    var loading: bool
    var error: Option<string>
    var paginacao: Paginacao
    var metricas: Metricas

    constructor()
      ensures produtos == [] && !loading && error == None
      ensures paginacao == PAGINACAO_INICIAL && metricas == METRICAS_INICIAIS
    {
      produtos := [];
      loading := false;
      error := None;
      paginacao := PAGINACAO_INICIAL;
      metricas := METRICAS_INICIAIS;
    }

    /**
     * The state a finished load leaves behind, given the answer, the sort the
     * load asked for and the pagination and metrics from before it: not
     * loading; on a success the answer's page (an absent `content` read as
     * empty), its pagination with the requested sort, the metrics of that
     * page and no error; on a failure an empty list, the old pagination and
     * metrics, and the server's message or the default one.
     */
    predicate Carregado(resposta: Result<PaginaResposta, ErroResposta>, sortPedido: string,
                        paginacaoAntes: Paginacao, metricasAntes: Metricas)
      reads this
    {
      && !loading
      && (resposta.Ok? ==>
            var r := resposta.value;
            && produtos == r.content.GetOr([])
            && paginacao == Paginacao(r.number, r.size, sortPedido, r.totalPages, r.totalElements)
            && metricas == CalcularMetricas(produtos)
            && error == None)
      && (resposta.Err? ==>
            && produtos == []
            && paginacao == paginacaoAntes && metricas == metricasAntes
            && error == Some(OrElse(resposta.error.erro, "Erro ao carregar produtos")))
    }

    /**
     * `carregarProdutos(page, size, sort)`: an omitted argument falls back to
     * the current pagination. A success takes the page, its pagination and
     * its metrics from the answer; a failure empties the list and keeps the
     * pagination and the metrics.
     */
    method CarregarProdutos(page: Option<int>, size: Option<int>, sort: Option<string>,
                            resposta: Result<PaginaResposta, ErroResposta>) returns (req: Requisicao)
      modifies this
      ensures req == Requisicao(page.GetOr(old(paginacao.page)), size.GetOr(old(paginacao.size)),
                                sort.GetOr(old(paginacao.sort)))
      ensures Carregado(resposta, sort.GetOr(old(paginacao.sort)), old(paginacao), old(metricas))
    {
      loading := true;
      error := None;
      req := Requisicao(page.GetOr(paginacao.page), size.GetOr(paginacao.size), sort.GetOr(paginacao.sort));
      match resposta {
        case Ok(r) =>
          produtos := r.content.GetOr([]);
          paginacao := Paginacao(r.number, r.size, sort.GetOr(paginacao.sort), r.totalPages, r.totalElements);
          metricas := CalcularMetricas(r.content.GetOr([]));
        case Err(e) =>
          error := Some(OrElse(e.erro, "Erro ao carregar produtos"));
          produtos := [];
      }
      loading := false;
    }

    /** The mount effect: the first load asks for page 0 of 10, newest first. */
    method Montar(resposta: Result<PaginaResposta, ErroResposta>) returns (req: Requisicao)
      modifies this
      ensures req == Requisicao(0, 10, "id,DESC")
      ensures Carregado(resposta, "id,DESC", old(paginacao), old(metricas))
    {
      req := CarregarProdutos(Some(0), Some(10), Some("id,DESC"), resposta);
    }

    /** `mudarPagina`: another page with the same size and sort. */
    method MudarPagina(novaPagina: int, resposta: Result<PaginaResposta, ErroResposta>) returns (req: Requisicao)
      modifies this
      ensures req == Requisicao(novaPagina, old(paginacao.size), old(paginacao.sort))
      ensures Carregado(resposta, old(paginacao.sort), old(paginacao), old(metricas))
    {
      req := CarregarProdutos(Some(novaPagina), Some(paginacao.size), Some(paginacao.sort), resposta);
    }

    /** `mudarTamanhoPagina`: back to page 0 with the new size and the same sort. */
    method MudarTamanhoPagina(novoTamanho: int, resposta: Result<PaginaResposta, ErroResposta>) returns (req: Requisicao)
      modifies this
      ensures req == Requisicao(0, novoTamanho, old(paginacao.sort))
      ensures Carregado(resposta, old(paginacao.sort), old(paginacao), old(metricas))
    {
      req := CarregarProdutos(Some(0), Some(novoTamanho), Some(paginacao.sort), resposta);
    }

    /** `mudarOrdenacao`: the same page and size with the new sort, which a success keeps. */
    method MudarOrdenacao(novaOrdenacao: string, resposta: Result<PaginaResposta, ErroResposta>) returns (req: Requisicao)
      modifies this
      ensures req == Requisicao(old(paginacao.page), old(paginacao.size), novaOrdenacao)
      ensures Carregado(resposta, novaOrdenacao, old(paginacao), old(metricas))
    {
      req := CarregarProdutos(Some(paginacao.page), Some(paginacao.size), Some(novaOrdenacao), resposta);
    }

    /** `recarregar`: the current page again. */
    method Recarregar(resposta: Result<PaginaResposta, ErroResposta>) returns (req: Requisicao)
      modifies this
      ensures req == Requisicao(old(paginacao.page), old(paginacao.size), old(paginacao.sort))
      ensures Carregado(resposta, old(paginacao.sort), old(paginacao), old(metricas))
    {
      req := CarregarProdutos(Some(paginacao.page), Some(paginacao.size), Some(paginacao.sort), resposta);
    }

    /**
     * `cadastrarProduto` on the outcome of the create call: a success reloads
     * page 0 with the current size and sort (a failed reload is absorbed by
     * the load itself); a failure is passed on and nothing is reloaded.
     */
    method CadastrarProduto(envio: Outcome<ErroResposta>, resposta: Result<PaginaResposta, ErroResposta>)
      returns (recarga: Option<Requisicao>, resultado: Outcome<ErroResposta>)
      modifies this
      ensures resultado == envio
      ensures envio.Pass? ==> recarga == Some(Requisicao(0, old(paginacao.size), old(paginacao.sort)))
      ensures envio.Pass? ==> Carregado(resposta, old(paginacao.sort), old(paginacao), old(metricas))
      ensures envio.Fail? ==>
        recarga == None && produtos == old(produtos) && paginacao == old(paginacao)
        && metricas == old(metricas) && error == old(error) && loading == old(loading)
    {
      match envio {
        case Pass =>
          var req := CarregarProdutos(Some(0), Some(paginacao.size), Some(paginacao.sort), resposta);
          recarga := Some(req);
        case Fail(_) =>
          recarga := None;
      }
      resultado := envio;
    }

    /** `deletarProduto`: like the create, but a success reloads the current page. */
    method DeletarProduto(envio: Outcome<ErroResposta>, resposta: Result<PaginaResposta, ErroResposta>)
      returns (recarga: Option<Requisicao>, resultado: Outcome<ErroResposta>)
      modifies this
      ensures resultado == envio
      ensures envio.Pass? ==>
        recarga == Some(Requisicao(old(paginacao.page), old(paginacao.size), old(paginacao.sort)))
      ensures envio.Pass? ==> Carregado(resposta, old(paginacao.sort), old(paginacao), old(metricas))
      ensures envio.Fail? ==>
        recarga == None && produtos == old(produtos) && paginacao == old(paginacao)
        && metricas == old(metricas) && error == old(error) && loading == old(loading)
    {
      match envio {
        case Pass =>
          var req := CarregarProdutos(Some(paginacao.page), Some(paginacao.size), Some(paginacao.sort), resposta);
          recarga := Some(req);
        case Fail(_) =>
          recarga := None;
      }
      resultado := envio;
    }
  }
}
