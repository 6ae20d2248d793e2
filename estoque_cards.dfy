/** The four summary cards above the inventory table. */
module EstoqueCards {
  import opened Wrappers
  import opened Produtos
  import opened ProdutoService

  /** The `metricas` property; any field may be missing and then takes its default. */
  datatype MetricasProp = MetricasProp(total: Option<int>, baixoEstoque: Option<int>, categorias: Option<Histograma>)

  /** The metrics the hook computed, handed to the cards with every field present. */
  function PropDe(m: Metricas): MetricasProp {
    MetricasProp(Some(m.total), Some(m.baixoEstoque), Some(m.categorias))
  }

  /** The accumulator of the reduction: a category name and its count. */
  datatype Principal = Principal(nome: string, quantidade: int)

  const NENHUMA := Principal("N/A", 0)

  /** The reduction step: an entry replaces the accumulator only with a strictly greater count. */
  function Passo(acc: Principal, e: (string, int)): Principal {
    if e.1 > acc.quantidade then Principal(e.0, e.1) else acc
  }

  /**
   * `categoriaPrincipal`: the largest count of the histogram, with the first
   * entry that has it; "N/A" with 0 when no count is positive.
   */
  function CategoriaPrincipal(h: Histograma): (r: Principal)
    ensures r.quantidade >= 0
    ensures forall i :: 0 <= i < |h| ==> h[i].1 <= r.quantidade
    ensures r.quantidade == 0 ==> r == NENHUMA
    ensures r.quantidade > 0 ==>
      exists i :: 0 <= i < |h| && h[i] == (r.nome, r.quantidade)
        && forall j :: 0 <= j < i ==> h[j].1 < r.quantidade
  {
    if h == [] then NENHUMA
    else
      var acc := CategoriaPrincipal(h[..|h| - 1]);
      var e := h[|h| - 1];
      assert forall i :: 0 <= i < |h| - 1 ==> h[i] == h[..|h| - 1][i];
      Passo(acc, e)
  }

  /** `{ title, value }` of one card. */
  datatype Card = Card(title: string, value: int)

  /** The four cards, in their fixed order, from the metrics with defaults 0, 0 and `{}`. */
  function Cards(m: MetricasProp): (r: seq<Card>)
    ensures |r| == 4
    ensures r[0] == Card("Total de Produtos", m.total.GetOr(0))
    ensures r[1] == Card("Estoque Baixo", m.baixoEstoque.GetOr(0))
    ensures r[2] == Card("Categoria Principal", CategoriaPrincipal(m.categorias.GetOr([])).quantidade)
    ensures r[3] == Card("Categorias Ativas", |m.categorias.GetOr([])|)
    ensures m.categorias.GetOr([]) == [] ==> r[2].value == 0
  {
    var categorias := m.categorias.GetOr([]);
    [ Card("Total de Produtos", m.total.GetOr(0)),
      Card("Estoque Baixo", m.baixoEstoque.GetOr(0)),
      Card("Categoria Principal", CategoriaPrincipal(categorias).quantidade),
      Card("Categorias Ativas", |categorias|) ]
  }

  /** The set of categories of a product list. */
  function CategoriasPresentes(s: seq<Produto>): set<string> {
    set i | 0 <= i < |s| :: s[i].categoriaProduto
  }

  /** On a product page, "Categorias Ativas" is the number of distinct categories. */
  lemma CategoriasAtivasDeProdutos(s: seq<Produto>)
    ensures Cards(PropDe(CalcularMetricas(s)))[3].value == |CategoriasPresentes(s)|
  {
    var h := CalcularMetricas(s).categorias;
    ChavesDistintasCardinalidade(h);
    assert (set i | 0 <= i < |h| :: h[i].0) == CategoriasPresentes(s) by {
      forall k ensures k in (set i | 0 <= i < |h| :: h[i].0) <==> k in CategoriasPresentes(s) {
        assert TemChave(h, k) <==> TemCategoria(s, k);
      }
    }
  }

  /**
   * On a product page, "Categoria Principal" is the size of the largest
   * category, and the name it keeps is a category of that size.
   */
  lemma CategoriaPrincipalDeProdutos(s: seq<Produto>)
    ensures forall c :: Ocorrencias(s, c) <= CategoriaPrincipal(CalcularMetricas(s).categorias).quantidade
    ensures s != [] ==>
      var p := CategoriaPrincipal(CalcularMetricas(s).categorias);
      p.quantidade == Ocorrencias(s, p.nome) > 0
  {
    var h := CalcularMetricas(s).categorias;
    var p := CategoriaPrincipal(h);
    forall c ensures Ocorrencias(s, c) <= p.quantidade {
      ContagemUnica(h, c);
    }
    if s != [] {
      assert TemChave(h, s[0].categoriaProduto) by {
        assert TemCategoria(s, s[0].categoriaProduto);
      }
      assert h[0].1 >= 1;
      ContagemUnica(h, p.nome);
    }
  }

  /**
   * On a product page, the "Categoria Principal" card shows the size of the
   * largest category: no category is larger, one has exactly that size, and
   * an empty page shows 0.
   */
  lemma CardPrincipalDeProdutos(s: seq<Produto>)
    ensures var v := Cards(PropDe(CalcularMetricas(s)))[2].value;
      && (forall c :: Ocorrencias(s, c) <= v)
      && (s != [] ==> exists c :: Ocorrencias(s, c) == v && v > 0)
      && (s == [] ==> v == 0)
  {
    var p := CategoriaPrincipal(CalcularMetricas(s).categorias);
    CategoriaPrincipalDeProdutos(s);
    if s != [] {
      assert Ocorrencias(s, p.nome) == p.quantidade > 0;
    }
  }

  /** No entry holding the largest count comes before the one the reduction keeps. */
  lemma PrincipalAntesDosEmpatados(h: Histograma, k: nat)
    requires k < |h| && h[k].1 == CategoriaPrincipal(h).quantidade > 0
    ensures IndiceDe(h, CategoriaPrincipal(h).nome) <= k
  {
    var p := CategoriaPrincipal(h);
    var i :| 0 <= i < |h| && h[i] == (p.nome, p.quantidade) && forall j :: 0 <= j < i ==> h[j].1 < p.quantidade;
    assert IndiceDe(h, p.nome) <= i;
  }

  /** On a tie for the largest category, the one met first in the product list is kept. */
  lemma CategoriaPrincipalEmpateFicaComAPrimeira(s: seq<Produto>, c: string)
    requires s != []
    requires Ocorrencias(s, c) == CategoriaPrincipal(CalcularMetricas(s).categorias).quantidade
    ensures PrimeiraPosicao(s, CategoriaPrincipal(CalcularMetricas(s).categorias).nome) <= PrimeiraPosicao(s, c)
  {
    CategoriaPrincipalDeProdutos(s);
    EmpateEmCategorias(s, c);
  }

  /** The tie rule on the histogram of a list, ordered by first appearance. */
  lemma EmpateEmCategorias(s: seq<Produto>, c: string)
    requires Contagem(Categorias(s), c) == CategoriaPrincipal(Categorias(s)).quantidade > 0
    ensures PrimeiraPosicao(s, CategoriaPrincipal(Categorias(s)).nome) <= PrimeiraPosicao(s, c)
  {
    var h := Categorias(s);
    var p := CategoriaPrincipal(h);
    CategoriasChaves(s);
    EmpateNoHistograma(h, c);
    var m, j := IndiceDe(h, p.nome), IndiceDe(h, c);
    if m < j {
      OrdemDeAparicao(s, m, j);
    } else {
      assert p.nome == h[m].0 == h[j].0 == c;
    }
  }

  /** An entry read earlier in the histogram has a category whose first product is earlier. */
  lemma OrdemDeAparicao(s: seq<Produto>, i: nat, j: nat)
    requires i < j < |Categorias(s)|
    ensures PrimeiraPosicao(s, Categorias(s)[i].0) < PrimeiraPosicao(s, Categorias(s)[j].0)
  {
    CategoriasEmOrdemDeAparicao(s);
  }

  /** On a tie with the largest count, the entry the reduction keeps is not after the tied category's entry. */
  lemma EmpateNoHistograma(h: Histograma, c: string)
    requires ChavesDistintas(h)
    requires Contagem(h, c) == CategoriaPrincipal(h).quantidade > 0
    ensures IndiceDe(h, CategoriaPrincipal(h).nome) <= IndiceDe(h, c) < |h|
  {
    var j := IndiceDe(h, c);
    ContagemUnica(h, c);
    var w :| 0 <= w < |h| && h[w].0 == c;
    assert j <= w;
    PrincipalAntesDosEmpatados(h, j);
  }

  /** With distinct keys, the count of a category is its entry's count, or 0 without one. */
  lemma {:induction false} ContagemUnica(h: Histograma, c: string)
    requires ChavesDistintas(h)
    ensures forall i :: 0 <= i < |h| && h[i].0 == c ==> Contagem(h, c) == h[i].1
    ensures !TemChave(h, c) ==> Contagem(h, c) == 0
  {
    if h != [] {
      var p := h[..|h| - 1];
      assert ChavesDistintas(p);
      ContagemUnica(p, c);
      forall i | 0 <= i < |h| && h[i].0 == c ensures Contagem(h, c) == h[i].1 {
        if i < |h| - 1 {
          assert p[i] == h[i];
          assert h[|h| - 1].0 != c;
        } else {
          assert !TemChave(p, c);
        }
      }
      if !TemChave(h, c) {
        assert !TemChave(p, c) by {
          forall j | 0 <= j < |p| ensures p[j].0 != c {
            assert p[j] == h[j];
          }
        }
      }
    }
  }

  /** Distinct keys: as many keys as entries. */
  lemma {:induction false} ChavesDistintasCardinalidade(h: Histograma)
    requires ChavesDistintas(h)
    ensures |set i | 0 <= i < |h| :: h[i].0| == |h|
  {
    if h != [] {
      var p := h[..|h| - 1];
      assert ChavesDistintas(p);
      ChavesDistintasCardinalidade(p);
      var kp := set i | 0 <= i < |p| :: p[i].0;
      var kh := set i | 0 <= i < |h| :: h[i].0;
      assert kh == kp + {h[|h| - 1].0} by {
        forall k ensures k in kh <==> k in kp + {h[|h| - 1].0} {
          if k in kp {
            var i :| 0 <= i < |p| && p[i].0 == k;
            assert h[i].0 == k;
          }
          if k in kh && k != h[|h| - 1].0 {
            var i :| 0 <= i < |h| && h[i].0 == k;
            assert p[i].0 == k;
          }
        }
      }
      assert h[|h| - 1].0 !in kp;
    }
  }
}
