/**
 * The inventory page: the stock chips of the table and of the mobile cards,
 * the category labels, the mobile pager and the dialog/snackbar state of
 * the create, delete and detail actions.
 */
module ControleEstoque {
  import opened Wrappers
  import opened Produtos
  import ProdutoFormDialog

  /** `getCategoriaLabel`'s table. */
  const CATEGORIA_LABELS: map<string, string> := map[
    "PIZZA" := "Pizza", "PORCAO" := "Porção", "SOBREMESA" := "Sobremesa", "PIZZA_DOCE" := "Pizza Doce",
    "ESFIHA" := "Esfiha", "ESFIHA_DOCE" := "Esfiha Doce", "BEBIDAS" := "Bebidas"]

  /** `map[categoria] || categoria`: a known code gets its label, any other text is shown as it is. */
  function CategoriaLabel(categoria: string): (r: string)
    ensures categoria in CATEGORIA_LABELS ==> r == CATEGORIA_LABELS[categoria] && r != ""
    ensures categoria !in CATEGORIA_LABELS ==> r == categoria
  {
    if categoria in CATEGORIA_LABELS && CATEGORIA_LABELS[categoria] != "" then CATEGORIA_LABELS[categoria]
    else categoria
  }

  /** The table labels exactly the seven codes the form offers, with the form's own labels. */
  lemma CategoriaLabelConcordaComFormulario()
    ensures CATEGORIA_LABELS.Keys == set i | 0 <= i < |CATEGORIAS| :: CATEGORIAS[i]
    ensures |ProdutoFormDialog.CATEGORIA_OPCOES| == |CATEGORIAS|
    ensures forall i :: 0 <= i < |CATEGORIAS| ==>
      ProdutoFormDialog.CATEGORIA_OPCOES[i].0 == CATEGORIAS[i]
      && CategoriaLabel(CATEGORIAS[i]) == ProdutoFormDialog.CATEGORIA_OPCOES[i].1
  {
    var codes := set i | 0 <= i < |CATEGORIAS| :: CATEGORIAS[i];
    assert CATEGORIAS[0] in codes && CATEGORIAS[1] in codes && CATEGORIAS[2] in codes && CATEGORIAS[3] in codes;
    assert CATEGORIAS[4] in codes && CATEGORIAS[5] in codes && CATEGORIAS[6] in codes;
  }

  /** The mobile card's `getEstoqueColor`: error when sold out, warning below 10, success otherwise. */
  function EstoqueColor(quantidade: int): (c: ChipColor)
    ensures c == Error <==> FaixaDe(quantidade) == Esgotado
    ensures c == Warning <==> FaixaDe(quantidade) == Baixo
    ensures c == Success <==> FaixaDe(quantidade) == Disponivel
  {
    if quantidade == 0 then Error else if quantidade < 10 then Warning else Success
  }

  /** A stock chip shows either the count itself or a word. */
  datatype CellLabel = Numero(n: int) | Texto(t: string)

  /** The table's stock `renderCell`: the chip's colour and label. */
  function EstoqueCell(quantidade: int): (r: (ChipColor, CellLabel))
    ensures FaixaDe(quantidade) == Esgotado ==> r == (Error, Texto("Esgotado"))
    ensures FaixaDe(quantidade) == Baixo ==> r == (Warning, Numero(quantidade))
    ensures FaixaDe(quantidade) == Disponivel ==> r == (Success, Numero(quantidade))
  {
    if quantidade == 0 then (Error, Texto("Esgotado"))
    else if quantidade < 10 then (Warning, Numero(quantidade))
    else (Success, Numero(quantidade))
  }

  /** The table chip and the card chip colour every count alike. */
  lemma CelulaConcordaComCard(quantidade: int)
    ensures EstoqueCell(quantidade).0 == EstoqueColor(quantidade)
  {
  }

  /** What the mobile pager renders. */
  datatype Pager = Pager(anteriorDesabilitado: bool, proximaDesabilitado: bool, numero: int,
                         alvoAnterior: int, alvoProxima: int)

  /** The mobile pager for a 0-based page: its buttons, the 1-based number shown and the pages they request. */
  function MobilePager(page: int, totalPages: int): (r: Pager)
    ensures r.anteriorDesabilitado <==> page == 0
    ensures r.proximaDesabilitado <==> page >= totalPages - 1
    ensures r.numero == page + 1
    ensures 0 <= page < totalPages ==>
      (!r.anteriorDesabilitado ==> 0 <= r.alvoAnterior < totalPages && r.alvoAnterior == page - 1)
      && (!r.proximaDesabilitado ==> 0 <= r.alvoProxima < totalPages && r.alvoProxima == page + 1)
  {
    Pager(page == 0, page >= totalPages - 1, page + 1, page - 1, page + 1)
  }

  /** `err.response?.data?.erro || err.response?.data?.message || padrao`. */
  function MensagemErro(e: ErroResposta, padrao: string): (r: string)
    ensures e.erro.Some? && e.erro.value != "" ==> r == e.erro.value
    ensures (e.erro.None? || e.erro.value == "") && e.message.Some? && e.message.value != "" ==> r == e.message.value
    ensures r == padrao || Some(r) == e.erro || Some(r) == e.message
    ensures padrao != "" ==> r != ""
  {
    if e.erro.Some? && e.erro.value != "" then e.erro.value
    else if e.message.Some? && e.message.value != "" then e.message.value
    else padrao
  }

  datatype Severidade = Sucesso | Falha

  datatype Snackbar = Snackbar(open: bool, message: string, severity: Severidade)

  /** The page's dialog, selection, loading and snackbar state. */
  class Page {
    var openFormDialog: bool
    var openDetailDialog: bool
    var openDeleteDialog: bool
    var produtoSelecionado: Option<Produto>
    var loadingAction: bool
    var loadingDetail: bool
    var snackbar: Snackbar

    constructor()
      ensures !openFormDialog && !openDetailDialog && !openDeleteDialog && produtoSelecionado == None
      ensures !loadingAction && !loadingDetail && snackbar == Snackbar(false, "", Sucesso)
    {
      openFormDialog, openDetailDialog, openDeleteDialog := false, false, false;
      produtoSelecionado := None;
      loadingAction, loadingDetail := false, false;
      snackbar := Snackbar(false, "", Sucesso);
    }

    /** `showSnackbar`. */
    method ShowSnackbar(message: string, severity: Severidade)
      modifies this`snackbar
      ensures snackbar == Snackbar(true, message, severity)
    {
      snackbar := Snackbar(true, message, severity);
    }

    /** `handleCloseSnackbar`: hidden, with its text kept. */
    method HandleCloseSnackbar()
      modifies this`snackbar
      ensures snackbar == old(snackbar).(open := false)
    {
      snackbar := snackbar.(open := false);
    }

    method HandleOpenFormDialog()
      modifies this`openFormDialog
      ensures openFormDialog
    {
      openFormDialog := true;
    }

    /** `handleOpenDeleteDialog`: select the product and ask for confirmation. */
    method HandleOpenDeleteDialog(produto: Produto)
      modifies this`produtoSelecionado, this`openDeleteDialog
      ensures produtoSelecionado == Some(produto) && openDeleteDialog
    {
      produtoSelecionado := Some(produto);
      openDeleteDialog := true;
    }

    /**
     * `handleOpenDetailDialog` on the outcome of the lookup: the fetched
     * details replace the selection (the lookup may answer with no product),
     * or the dialog closes with an error.
     */
    method HandleOpenDetailDialog(produto: Produto, detalhes: Result<Option<Produto>, ErroResposta>)
      modifies this`produtoSelecionado, this`openDetailDialog, this`loadingDetail, this`snackbar
      ensures !loadingDetail
      ensures detalhes.Ok? ==> produtoSelecionado == detalhes.value && openDetailDialog
                               && snackbar == old(snackbar)
      ensures detalhes.Err? ==> produtoSelecionado == Some(produto) && !openDetailDialog
                                && snackbar == Snackbar(true, "Erro ao carregar detalhes do produto", Falha)
    {
      produtoSelecionado := Some(produto);
      openDetailDialog := true;
      loadingDetail := true;
      match detalhes {
        case Ok(p) =>
          produtoSelecionado := p;
        case Err(_) =>
          ShowSnackbar("Erro ao carregar detalhes do produto", Falha);
          openDetailDialog := false;
      }
      loadingDetail := false;
    }

    /** `handleCadastrar` on the outcome of the hook's create: success closes the form. */
    method HandleCadastrar(resultado: Outcome<ErroResposta>)
      modifies this`loadingAction, this`snackbar, this`openFormDialog
      ensures !loadingAction
      ensures resultado.Pass? ==> snackbar == Snackbar(true, "Produto cadastrado com sucesso!", Sucesso) && !openFormDialog
      ensures resultado.Fail? ==>
        snackbar == Snackbar(true, MensagemErro(resultado.error, "Erro ao cadastrar produto"), Falha)
        && openFormDialog == old(openFormDialog)
    {
      loadingAction := true;
      match resultado {
        case Pass =>
          ShowSnackbar("Produto cadastrado com sucesso!", Sucesso);
          openFormDialog := false;
        case Fail(e) =>
          ShowSnackbar(MensagemErro(e, "Erro ao cadastrar produto"), Falha);
      }
      loadingAction := false;
    }

    /** `handleDeletar` on the outcome of the hook's delete: success closes the dialog and clears the selection. */
    method HandleDeletar(resultado: Outcome<ErroResposta>)
      modifies this`loadingAction, this`snackbar, this`openDeleteDialog, this`produtoSelecionado
      ensures !loadingAction
      ensures resultado.Pass? ==>
        snackbar == Snackbar(true, "Produto deletado com sucesso!", Sucesso)
        && !openDeleteDialog && produtoSelecionado == None
      ensures resultado.Fail? ==>
        snackbar == Snackbar(true, MensagemErro(resultado.error, "Erro ao deletar produto"), Falha)
        && openDeleteDialog == old(openDeleteDialog) && produtoSelecionado == old(produtoSelecionado)
    {
      loadingAction := true;
      match resultado {
        case Pass =>
          ShowSnackbar("Produto deletado com sucesso!", Sucesso);
          openDeleteDialog := false;
          produtoSelecionado := None;
        case Fail(e) =>
          ShowSnackbar(MensagemErro(e, "Erro ao deletar produto"), Falha);
      }
      loadingAction := false;
    }
  }
}
