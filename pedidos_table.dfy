/** The active-orders grid: fixed-size pages over the filtered list and the page cursor. */
module PedidosTable {
  import opened Wrappers
  import opened Seqs
  import opened Pedidos

  const ITEMS_PER_PAGE: nat := 8

  /** `Math.max(1, Math.ceil(n / ITEMS_PER_PAGE))`: the fewest pages that hold `n` orders, and never 0. */
  function TotalPages(n: nat): (r: nat)
    ensures r >= 1
    ensures n <= ITEMS_PER_PAGE * r
    ensures r == 1 || ITEMS_PER_PAGE * (r - 1) < n
  {
    if n == 0 then 1 else (n + ITEMS_PER_PAGE - 1) / ITEMS_PER_PAGE
  }

  /** The first index shown on a 1-based page. */
  function Inicio(page: nat): nat
    requires page >= 1
  {
    (page - 1) * ITEMS_PER_PAGE
  }

  /** The slice effect: the orders `[(page-1)*8, (page-1)*8 + 8)` of the list, clamped to its end. */
  function PageSlice(pedidos: seq<Pedido>, page: nat): (r: seq<Pedido>)
    requires page >= 1
    ensures |r| <= ITEMS_PER_PAGE
    ensures forall i :: 0 <= i < |r| ==> Inicio(page) + i < |pedidos| && r[i] == pedidos[Inicio(page) + i]
    ensures Inicio(page) + ITEMS_PER_PAGE <= |pedidos| ==> |r| == ITEMS_PER_PAGE
  {
    Slice(pedidos, Inicio(page), Inicio(page) + ITEMS_PER_PAGE)
  }

  /** The clamp effect: a page past the last one becomes the last one; any other page stays. */
  function ClampPage(page: nat, n: nat): (r: nat)
    ensures page > TotalPages(n) ==> r == TotalPages(n)
    ensures page <= TotalPages(n) ==> r == page
    ensures page >= 1 ==> 1 <= r <= TotalPages(n)
  {
    if page > TotalPages(n) then TotalPages(n) else page
  }

  /** The pager is rendered when there is more than one page. */
  predicate MostraPaginacao(n: nat) {
    TotalPages(n) > 1
  }

  /** More than one page exists exactly when the orders do not fit on one. */
  lemma MostraPaginacaoIff(n: nat)
    ensures MostraPaginacao(n) <==> n > ITEMS_PER_PAGE
  {
  }

  /** Pages `page`, `page + 1`, … up to the last one, joined. */
  function JuntarPaginas(pedidos: seq<Pedido>, page: nat): seq<Pedido>
    requires page >= 1
    decreases TotalPages(|pedidos|) + 1 - page
  {
    if page > TotalPages(|pedidos|) then []
    else PageSlice(pedidos, page) + JuntarPaginas(pedidos, page + 1)
  }

  lemma {:induction false} JuntarPaginasDesde(pedidos: seq<Pedido>, page: nat)
    requires 1 <= page
    ensures page <= TotalPages(|pedidos|) ==> JuntarPaginas(pedidos, page) == pedidos[Inicio(page)..]
    decreases TotalPages(|pedidos|) + 1 - page
  {
    var n := |pedidos|;
    if page <= TotalPages(n) {
      assert Inicio(page) <= n;
      if page == TotalPages(n) {
        assert n <= Inicio(page) + ITEMS_PER_PAGE;
        assert JuntarPaginas(pedidos, page + 1) == [];
        assert PageSlice(pedidos, page) == pedidos[Inicio(page)..];
      } else {
        assert Inicio(page + 1) == Inicio(page) + ITEMS_PER_PAGE;
        assert Inicio(page + 1) <= n;
        JuntarPaginasDesde(pedidos, page + 1);
        assert PageSlice(pedidos, page) == pedidos[Inicio(page)..Inicio(page + 1)];
        assert pedidos[Inicio(page)..] == pedidos[Inicio(page)..Inicio(page + 1)] + pedidos[Inicio(page + 1)..];
      }
    }
  }

  /** Paging loses and repeats nothing: pages 1 to the last one, joined, are the whole list. */
  lemma PaginasCobremTudo(pedidos: seq<Pedido>)
    ensures JuntarPaginas(pedidos, 1) == pedidos
  {
    JuntarPaginasDesde(pedidos, 1);
  }

  /** No page up to the last one is empty, unless there are no orders at all. */
  lemma PaginasNaoVazias(pedidos: seq<Pedido>, page: nat)
    requires 1 <= page <= TotalPages(|pedidos|) && |pedidos| > 0
    ensures |PageSlice(pedidos, page)| > 0
  {
    assert Inicio(page) < |pedidos|;
    assert PageSlice(pedidos, page)[0] == pedidos[Inicio(page)];
  }

  /** The grid's state; `pedidos` is the list the page hands in. */
  class Table {
    var pedidos: seq<Pedido>
    var page: nat
    var currentPedidos: seq<Pedido>

    /** After the effects settle, the cursor is on an existing page and the shown orders are its slice. */
    ghost predicate Valid()
      reads this
    {
      1 <= page <= TotalPages(|pedidos|) && currentPedidos == PageSlice(pedidos, page)
    }

    constructor(lista: seq<Pedido>)
      ensures Valid()
      ensures pedidos == lista && page == 1
    {
      pedidos := lista;
      page := 1;
      currentPedidos := PageSlice(lista, 1);
    }

    /** Both effects after `pedidos` or `page` changed: slice, clamp, and slice again if the clamp moved the page. */
    method Efeitos()
      requires page >= 1
      modifies this`page, this`currentPedidos
      ensures Valid()
      ensures page == ClampPage(old(page), |pedidos|)
    {
      currentPedidos := PageSlice(pedidos, page);
      var totalPages := TotalPages(|pedidos|);
      if page > totalPages {
        page := totalPages;
        currentPedidos := PageSlice(pedidos, page);
      }
    }

    /** A new filtered list from the page: the cursor is kept when it still exists. */
    method SetPedidos(lista: seq<Pedido>)
      requires Valid()
      modifies this
      ensures Valid()
      ensures pedidos == lista && page == ClampPage(old(page), |lista|)
    {
      pedidos := lista;
      Efeitos();
    }

    /** `handlePageChange`; the pager offers the pages 1 to `TotalPages`. */
    method HandlePageChange(value: nat)
      requires Valid() && value >= 1
      modifies this`page, this`currentPedidos
      ensures Valid()
      ensures value <= TotalPages(|pedidos|) ==> page == value
      ensures currentPedidos == PageSlice(pedidos, ClampPage(value, |pedidos|))
    {
      page := value;
      Efeitos();
    }

    /** `handleSearch`: back to page 1, and the query goes to the parent unchanged when it listens. */
    method HandleSearch(query: SearchParams, temOnSearch: bool) returns (encaminhada: Option<SearchParams>)
      requires Valid()
      modifies this`page, this`currentPedidos
      ensures Valid()
      ensures page == 1 && currentPedidos == PageSlice(pedidos, 1)
      ensures encaminhada == (if temOnSearch then Some(query) else None)
    {
      page := 1;
      Efeitos();
      encaminhada := if temOnSearch then Some(query) else None;
    }
  }
}
