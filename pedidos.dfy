/**
 * The active-orders page: the list loaded from the server and the search
 * that narrows it, either by free text over every field or by the fields the
 * user ticked.
 */
module Pedidos {
  import opened Wrappers
  import opened Seqs
  import opened Text

  /** An active order as the page reads it; any field may be missing. */
  datatype Pedido = Pedido(
    id: Option<int>,
    nomeCliente: Option<string>,
    statusPedido: Option<string>,
    tipoEntrega: Option<string>)

  /** What the search field reports: the raw term and the ticked field filters. */
  datatype SearchParams = SearchParams(term: string, filters: seq<string>)

  /** The status aliases, in the order `Object.entries` visits them. */
  const STATUS_TERMS: seq<(string, string)> :=
    [("recebido", "RECEBIDO"), ("preparo", "EM_PREPARO"), ("pronto", "PRONTO"), ("entregue", "ENTREGUE")]

  /** `pedido.id?.toString() || ""`. */
  function IdTexto(p: Pedido): string {
    if p.id.Some? then IntString(p.id.value) else ""
  }

  /** `(campo || "").toLowerCase()`. */
  function CampoTexto(campo: Option<string>): string {
    ToLower(campo.GetOr(""))
  }

  /** The index of the first alias whose key includes `term`, or the length when none does. */
  function PrimeiroAlias(aliases: seq<(string, string)>, term: string): (k: nat)
    ensures k <= |aliases|
    ensures forall j :: 0 <= j < k ==> !Contains(aliases[j].0, term)
    ensures k < |aliases| ==> Contains(aliases[k].0, term)
  {
    if aliases == [] then 0
    else if Contains(aliases[0].0, term) then 0
    else 1 + PrimeiroAlias(aliases[1..], term)
  }

  /**
   * The "status" filter: the first alias key including the term decides by
   * exact equality with its status; with no such key, a substring match on
   * the lower-cased status.
   */
  predicate StatusCombina(p: Pedido, term: string) {
    var k := PrimeiroAlias(STATUS_TERMS, term);
    if k < |STATUS_TERMS| then p.statusPedido == Some(STATUS_TERMS[k].1)
    else Contains(CampoTexto(p.statusPedido), term)
  }

  /** One field filter; "data" and any unknown filter never match. */
  predicate FiltroCombina(p: Pedido, filtro: string, term: string) {
    if filtro == "codigo" then Contains(IdTexto(p), term)
    else if filtro == "cliente" then Contains(CampoTexto(p.nomeCliente), term)
    else if filtro == "status" then StatusCombina(p, term)
    else if filtro == "entrega" then Contains(CampoTexto(p.tipoEntrega), term)
    else false
  }

  /** Free-text mode: the id text or any lower-cased text field includes the term. */
  predicate TextoLivreCombina(p: Pedido, term: string) {
    Contains(IdTexto(p), term)
    || Contains(CampoTexto(p.nomeCliente), term)
    || Contains(CampoTexto(p.statusPedido), term)
    || Contains(CampoTexto(p.tipoEntrega), term)
  }

  /** `filters.some(...)`: one of the ticked filters accepts the order. */
  predicate AlgumFiltroCombina(p: Pedido, filters: seq<string>, term: string) {
    filters != [] && (FiltroCombina(p, filters[0], term) || AlgumFiltroCombina(p, filters[1..], term))
  }

  lemma {:induction false} AlgumFiltroCombinaIff(p: Pedido, filters: seq<string>, term: string)
    ensures AlgumFiltroCombina(p, filters, term) <==>
      exists i :: 0 <= i < |filters| && FiltroCombina(p, filters[i], term)
  {
    if filters != [] {
      AlgumFiltroCombinaIff(p, filters[1..], term);
      if exists i :: 0 <= i < |filters| && FiltroCombina(p, filters[i], term) {
        var i :| 0 <= i < |filters| && FiltroCombina(p, filters[i], term);
        if i > 0 {
          assert filters[1..][i - 1] == filters[i];
        }
      }
      if AlgumFiltroCombina(p, filters[1..], term) {
        var i :| 0 <= i < |filters[1..]| && FiltroCombina(p, filters[1..][i], term);
        assert filters[i + 1] == filters[1..][i];
      }
    }
  }

  /** Whether an order survives a non-blank search. */
  predicate Combina(p: Pedido, params: SearchParams) {
    var term := Normalize(params.term);
    if |params.filters| == 0 then TextoLivreCombina(p, term)
    else AlgumFiltroCombina(p, params.filters, term)
  }

  /** `allPedidos.filter(...)` for a non-blank search, one order at a time. */
  function Combinam(all: seq<Pedido>, params: SearchParams): seq<Pedido> {
    if all == [] then []
    else (if Combina(all[0], params) then [all[0]] else []) + Combinam(all[1..], params)
  }

  /** The filter effect: a blank term shows everything, otherwise the matching orders in their order. */
  function FiltrarPedidos(all: seq<Pedido>, params: SearchParams): seq<Pedido> {
    if IsBlank(params.term) then all
    else Combinam(all, params)
  }

  /** The order-by-order filter is the generic filter with the search predicate. */
  lemma {:induction false} CombinamIsFilter(all: seq<Pedido>, params: SearchParams)
    ensures Combinam(all, params) == Filter(all, p => Combina(p, params))
  {
    if all != [] {
      CombinamIsFilter(all[1..], params);
    }
  }

  /**
   * What the filter effect promises: a blank term keeps the list; the result
   * is always an order-preserving sublist; otherwise an order is kept exactly
   * when it matches, with every copy of a matching order kept.
   */
  lemma FiltrarPedidosSpec(all: seq<Pedido>, params: SearchParams)
    ensures all == [] ==> FiltrarPedidos(all, params) == []
    ensures IsBlank(params.term) ==> FiltrarPedidos(all, params) == all
    ensures IsSubseq(FiltrarPedidos(all, params), all)
    ensures !IsBlank(params.term) ==>
      var r := FiltrarPedidos(all, params);
      (forall i :: 0 <= i < |r| ==> Combina(r[i], params))
      && (forall i :: 0 <= i < |all| && Combina(all[i], params) ==> all[i] in r)
      && (forall x :: multiset(r)[x] == if Combina(x, params) then multiset(all)[x] else 0)
  {
    if IsBlank(params.term) {
      IsSubseqRefl(all);
    } else {
      var combina := (p: Pedido) => Combina(p, params);
      CombinamIsFilter(all, params);
      assert Combinam(all, params) == Filter(all, combina);
      FilterMultiset(all, combina);
    }
  }

  /** "pr" is included in "preparo" but not in "recebido": the status filter then accepts exactly EM_PREPARO. */
  lemma StatusPrSelecionaEmPreparo(p: Pedido)
    ensures StatusCombina(p, "pr") <==> p.statusPedido == Some("EM_PREPARO")
  {
    ContainsHead("recebido", "pr");
    assert Contains("preparo", "pr");
    assert PrimeiroAlias(STATUS_TERMS, "pr") == 1;
  }

  /**
   * The alias order decides: "e" occurs in every key, so the first one wins
   * and the status filter accepts RECEBIDO only, even for ENTREGUE orders.
   */
  lemma StatusPrimeiroAliasVence(p: Pedido)
    ensures StatusCombina(p, "e") <==> p.statusPedido == Some("RECEBIDO")
  {
    assert "recebido"[1..][..1] == "e";
    assert Contains("recebido", "e");
    assert PrimeiroAlias(STATUS_TERMS, "e") == 0;
  }

  /** A term no alias key includes falls back to a substring match on the status text. */
  lemma StatusSemAlias(p: Pedido, term: string)
    requires forall j :: 0 <= j < |STATUS_TERMS| ==> !Contains(STATUS_TERMS[j].0, term)
    ensures StatusCombina(p, term) <==> Contains(CampoTexto(p.statusPedido), term)
  {
  }

  /** Only the four known field names can ever accept an order. */
  predicate FiltroConhecido(filtro: string) {
    filtro == "codigo" || filtro == "cliente" || filtro == "status" || filtro == "entrega"
  }

  lemma {:induction false} FiltrosDesconhecidosRejeitam(p: Pedido, filters: seq<string>, term: string)
    requires forall i :: 0 <= i < |filters| ==> !FiltroConhecido(filters[i])
    ensures !AlgumFiltroCombina(p, filters, term)
  {
    if filters != [] {
      assert !FiltroConhecido(filters[0]);
      FiltrosDesconhecidosRejeitam(p, filters[1..], term);
    }
  }

  /** With only unknown or "data" filters ticked, a non-blank search finds nothing. */
  lemma FiltrosDesconhecidosNadaEncontram(all: seq<Pedido>, params: SearchParams)
    requires !IsBlank(params.term) && |params.filters| > 0
    requires forall i :: 0 <= i < |params.filters| ==> !FiltroConhecido(params.filters[i])
    ensures FiltrarPedidos(all, params) == []
  {
    forall p: Pedido ensures !Combina(p, params) {
      FiltrosDesconhecidosRejeitam(p, params.filters, Normalize(params.term));
    }
    CombinamIsFilter(all, params);
  }

  /**
   * The two search modes: with no field filter ticked an order matches by
   * free text; otherwise it matches when at least one ticked filter accepts it.
   */
  lemma CombinaModos(p: Pedido, params: SearchParams)
    ensures |params.filters| == 0 ==> (Combina(p, params) <==> TextoLivreCombina(p, Normalize(params.term)))
    ensures |params.filters| > 0 ==>
      (Combina(p, params) <==>
        exists i :: 0 <= i < |params.filters| && FiltroCombina(p, params.filters[i], Normalize(params.term)))
  {
    AlgumFiltroCombinaIff(p, params.filters, Normalize(params.term));
  }

  /** The page's state; `filteredPedidos` is always the filter effect applied to the loaded list. */
  class Page {
    var loading: bool
    var allPedidos: seq<Pedido>
    var filteredPedidos: seq<Pedido>
    var searchParams: SearchParams
    var error: Option<string>
    var openSnackbar: bool

    ghost predicate Valid()
      reads this
    {
      filteredPedidos == FiltrarPedidos(allPedidos, searchParams)
    }

    constructor()
      ensures Valid()
      ensures !loading && allPedidos == [] && filteredPedidos == []
      ensures searchParams == SearchParams("", []) && error == None && !openSnackbar
    {
      loading := false;
      allPedidos := [];
      filteredPedidos := [];
      searchParams := SearchParams("", []);
      error := None;
      openSnackbar := false;
      FiltrarPedidosSpec([], SearchParams("", []));
    }

    /**
     * `carregarPedidos` on the service's outcome: the list on success, or
     * the thrown error's message (possibly missing or empty) on failure.
     */
    method CarregarPedidos(resultado: Result<seq<Pedido>, Option<string>>)
      requires Valid()
      modifies this
      ensures Valid()
      ensures !loading && searchParams == old(searchParams)
      ensures resultado.Ok? ==>
        allPedidos == resultado.value && error == None && openSnackbar == old(openSnackbar)
        && filteredPedidos == FiltrarPedidos(resultado.value, searchParams)
      ensures resultado.Err? ==>
        allPedidos == old(allPedidos) && filteredPedidos == old(filteredPedidos) && openSnackbar
        && error == Some(OrElse(resultado.error,
                                "Não foi possível carregar os pedidos. Tente novamente mais tarde."))
    {
      loading := true;
      error := None;
      match resultado {
        case Ok(data) =>
          var params := searchParams;
          allPedidos := data;
          filteredPedidos := data;
          // The filter effect runs again because the loaded list changed.
          var filtrados := FiltrarPedidos(data, params);
          filteredPedidos := filtrados;
        case Err(message) =>
          error := Some(OrElse(message, "Não foi possível carregar os pedidos. Tente novamente mais tarde."));
          openSnackbar := true;
      }
      loading := false;
    }

    /** `handleSearch`, followed by the filter effect it triggers. */
    method HandleSearch(params: SearchParams)
      requires Valid()
      modifies this`searchParams, this`filteredPedidos
      ensures Valid()
      ensures searchParams == params && filteredPedidos == FiltrarPedidos(allPedidos, params)
    {
      searchParams := params;
      filteredPedidos := FiltrarPedidos(allPedidos, searchParams);
    }

    /** The "Limpar filtros" button: every loaded order is shown again. */
    method LimparFiltros()
      requires Valid()
      modifies this`searchParams, this`filteredPedidos
      ensures Valid()
      ensures searchParams == SearchParams("", []) && filteredPedidos == allPedidos
    {
      FiltrarPedidosSpec(allPedidos, SearchParams("", []));
      HandleSearch(SearchParams("", []));
    }

    method HandleCloseSnackbar()
      modifies this`openSnackbar
      ensures !openSnackbar
    {
      openSnackbar := false;
    }
  }
}
