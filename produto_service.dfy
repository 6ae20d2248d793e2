/**
 * `calcularMetricas`: the inventory summary computed from one page of
 * products — how many there are, how many are low on stock, and how many
 * belong to each category.
 */
module ProdutoService {
  import opened Seqs
  import opened Produtos

  /**
   * The category histogram: an object from category code to count, written
   * as its entries in `Object.entries` order, which for these keys is the
   * order in which each category is first met.
   */
  type Histograma = seq<(string, int)>

  datatype Metricas = Metricas(total: int, baixoEstoque: int, categorias: Histograma)

  predicate ChavesDistintas(h: Histograma) {
    forall i, j :: 0 <= i < j < |h| ==> h[i].0 != h[j].0
  }

  predicate TemChave(h: Histograma, k: string) {
    exists i :: 0 <= i < |h| && h[i].0 == k
  }

  /** The position of the entry for `cat`, or the length when there is none. */
  function IndiceDe(h: Histograma, cat: string): (m: nat)
    ensures m <= |h|
    ensures forall j :: 0 <= j < m ==> h[j].0 != cat
    ensures m < |h| ==> h[m].0 == cat
  {
    if h == [] || h[0].0 == cat then 0 else 1 + IndiceDe(h[1..], cat)
  }

  /** The term an entry contributes to the count of `c`. */
  function ParcelaDe(c: string): ((string, int)) -> int {
    (e: (string, int)) => if e.0 == c then e.1 else 0
  }

  /** `acc[cat] || 0`: with distinct keys, the count stored under `cat`, or 0 without one. */
  function Contagem(h: Histograma, cat: string): int {
    Sum(h, ParcelaDe(cat))
  }

  function QuantidadeDe(e: (string, int)): int { e.1 }

  /** How many of the products have category `cat`. */
  function Ocorrencias(s: seq<Produto>, cat: string): nat {
    if s == [] then 0
    else Ocorrencias(s[..|s| - 1], cat) + (if s[|s| - 1].categoriaProduto == cat then 1 else 0)
  }

  predicate TemCategoria(s: seq<Produto>, cat: string) {
    exists i :: 0 <= i < |s| && s[i].categoriaProduto == cat
  }

  /** `acc[cat] = (acc[cat] || 0) + 1` on the entries. */
  function Incrementar(h: Histograma, cat: string): Histograma {
    if h == [] then [(cat, 1)]
    else if h[0].0 == cat then [(cat, h[0].1 + 1)] + h[1..]
    else [h[0]] + Incrementar(h[1..], cat)
  }

  /** Incrementing bumps the first entry for `cat` in place, or appends a new entry with count 1. */
  lemma {:induction false} IncrementarForma(h: Histograma, cat: string)
    ensures var m := IndiceDe(h, cat);
      && (m < |h| ==> Incrementar(h, cat) == h[m := (cat, h[m].1 + 1)])
      && (m == |h| ==> Incrementar(h, cat) == h + [(cat, 1)])
  {
    if h != [] && h[0].0 != cat {
      IncrementarForma(h[1..], cat);
      var m := IndiceDe(h[1..], cat);
      if m < |h[1..]| {
        assert [h[0]] + h[1..][m := (cat, h[1..][m].1 + 1)] == h[m + 1 := (cat, h[m + 1].1 + 1)];
      } else {
        assert [h[0]] + (h[1..] + [(cat, 1)]) == h + [(cat, 1)];
      }
    } else if h != [] {
      assert [(cat, h[0].1 + 1)] + h[1..] == h[0 := (cat, h[0].1 + 1)];
    }
  }

  /** The keys and the total of an increment. */
  lemma IncrementarChaves(h: Histograma, cat: string)
    requires ChavesDistintas(h)
    ensures var r := Incrementar(h, cat);
      && ChavesDistintas(r)
      && (forall k :: TemChave(r, k) <==> TemChave(h, k) || k == cat)
      && (TemChave(h, cat) ==> |r| == |h|)
      && (!TemChave(h, cat) ==> r == h + [(cat, 1)])
      && (forall i :: 0 <= i < |h| ==> r[i].0 == h[i].0)
      && ((forall i :: 0 <= i < |h| ==> h[i].1 >= 1) ==> forall i :: 0 <= i < |r| ==> r[i].1 >= 1)
  {
    IncrementarForma(h, cat);
    var m := IndiceDe(h, cat);
    var r := Incrementar(h, cat);
    if m == |h| {
      assert !TemChave(h, cat);
      forall k ensures TemChave(r, k) <==> TemChave(h, k) || k == cat {
        if TemChave(r, k) {
          var i :| 0 <= i < |r| && r[i].0 == k;
          if i < |h| {
            assert h[i].0 == k;
          }
        }
        if TemChave(h, k) {
          var i :| 0 <= i < |h| && h[i].0 == k;
          assert r[i].0 == k;
        }
        if k == cat {
          assert r[|h|].0 == cat;
        }
      }
    } else {
      forall k ensures TemChave(r, k) <==> TemChave(h, k) || k == cat {
        if TemChave(r, k) {
          var i :| 0 <= i < |r| && r[i].0 == k;
          assert h[i].0 == k;
        }
        if TemChave(h, k) {
          var i :| 0 <= i < |h| && h[i].0 == k;
          assert r[i].0 == k;
        }
        if k == cat {
          assert r[m].0 == cat;
        }
      }
    }
  }

  /** The counts of an increment: one more for `cat`, the same for every other category. */
  lemma IncrementarContagens(h: Histograma, cat: string)
    ensures forall c :: Contagem(Incrementar(h, cat), c) == Contagem(h, c) + (if c == cat then 1 else 0)
    ensures Sum(Incrementar(h, cat), QuantidadeDe) == Sum(h, QuantidadeDe) + 1
  {
    forall c {
      IncrementarParcelas(h, cat, ParcelaDe(c));
    }
    IncrementarParcelas(h, cat, QuantidadeDe);
  }

  /** An increment changes a sum over the entries by the change of the one entry it bumps or adds. */
  lemma IncrementarParcelas(h: Histograma, cat: string, f: ((string, int)) -> int)
    ensures var m := IndiceDe(h, cat);
      Sum(Incrementar(h, cat), f)
        == Sum(h, f) + (if m < |h| then f((cat, h[m].1 + 1)) - f(h[m]) else f((cat, 1)))
  {
    IncrementarForma(h, cat);
    var m := IndiceDe(h, cat);
    if m < |h| {
      SumUpdate(h, m, (cat, h[m].1 + 1), f);
    } else {
      SumAppend(h, (cat, 1), f);
    }
  }

  /** The `reduce` over the products, starting from `{}`. */
  function Categorias(s: seq<Produto>): Histograma {
    if s == [] then [] else Incrementar(Categorias(s[..|s| - 1]), s[|s| - 1].categoriaProduto)
  }

  /** The histogram's keys are distinct, are exactly the categories present, and each count is at least 1. */
  lemma {:induction false} CategoriasChaves(s: seq<Produto>)
    ensures var h := Categorias(s);
      && ChavesDistintas(h)
      && (forall k :: TemChave(h, k) <==> TemCategoria(s, k))
      && (forall i :: 0 <= i < |h| ==> h[i].1 >= 1)
  {
    if s != [] {
      var p := s[..|s| - 1];
      var x := s[|s| - 1];
      CategoriasChaves(p);
      IncrementarChaves(Categorias(p), x.categoriaProduto);
      forall k {
        TemCategoriaUltimo(s, k);
      }
    }
  }

  /** A category is present in a non-empty list when it is present before the last product or is the last one's. */
  lemma TemCategoriaUltimo(s: seq<Produto>, k: string)
    requires s != []
    ensures TemCategoria(s, k) <==> TemCategoria(s[..|s| - 1], k) || s[|s| - 1].categoriaProduto == k
  {
    var p := s[..|s| - 1];
    if TemCategoria(p, k) {
      var i :| 0 <= i < |p| && p[i].categoriaProduto == k;
      assert s[i].categoriaProduto == k;
    }
    if TemCategoria(s, k) && s[|s| - 1].categoriaProduto != k {
      var i :| 0 <= i < |s| && s[i].categoriaProduto == k;
      assert p[i].categoriaProduto == k;
    }
  }

  /** Each category's count is its number of products, and the counts add up to the length. */
  lemma {:induction false} CategoriasContagens(s: seq<Produto>)
    ensures var h := Categorias(s);
      && (forall c :: Contagem(h, c) == Ocorrencias(s, c))
      && Sum(h, QuantidadeDe) == |s|
  {
    if s != [] {
      var p := s[..|s| - 1];
      var x := s[|s| - 1];
      CategoriasContagens(p);
      IncrementarContagens(Categorias(p), x.categoriaProduto);
    }
  }

  /**
   * The histogram has one entry per category present, each holding the
   * number of products of that category, and its counts add up to the length.
   */
  lemma CategoriasSpec(s: seq<Produto>)
    ensures var h := Categorias(s);
      && ChavesDistintas(h)
      && (forall c :: Contagem(h, c) == Ocorrencias(s, c))
      && (forall k :: TemChave(h, k) <==> TemCategoria(s, k))
      && (forall i :: 0 <= i < |h| ==> h[i].1 >= 1)
      && Sum(h, QuantidadeDe) == |s|
  {
    CategoriasChaves(s);
    CategoriasContagens(s);
  }

  /** The position of the first product of category `cat`, or the length when there is none. */
  function PrimeiraPosicao(s: seq<Produto>, cat: string): (m: nat)
    ensures m <= |s|
    ensures forall j :: 0 <= j < m ==> s[j].categoriaProduto != cat
    ensures m < |s| ==> s[m].categoriaProduto == cat
  {
    if s == [] || s[0].categoriaProduto == cat then 0 else 1 + PrimeiraPosicao(s[1..], cat)
  }

  /** Appending a product does not move the first position of a category already present. */
  lemma PrimeiraPosicaoAposAnexar(p: seq<Produto>, x: Produto, k: string)
    ensures TemCategoria(p, k) ==> PrimeiraPosicao(p + [x], k) == PrimeiraPosicao(p, k) < |p|
    ensures !TemCategoria(p, k) && x.categoriaProduto == k ==> PrimeiraPosicao(p + [x], k) == |p|
  {
    var s := p + [x];
    var m := PrimeiraPosicao(p, k);
    forall j | 0 <= j < |p| ensures s[j] == p[j] {
    }
    if TemCategoria(p, k) {
      var i :| 0 <= i < |p| && p[i].categoriaProduto == k;
      assert m <= i;
    } else if x.categoriaProduto == k {
      assert s[|p|].categoriaProduto == k;
    }
  }

  /**
   * The entries come in the order in which their categories are first met
   * in the list, which is the order `Object.entries` reports them in.
   */
  lemma {:induction false} CategoriasEmOrdemDeAparicao(s: seq<Produto>)
    ensures var h := Categorias(s);
      forall i, j :: 0 <= i < j < |h| ==> PrimeiraPosicao(s, h[i].0) < PrimeiraPosicao(s, h[j].0)
  {
    if s != [] {
      var p := s[..|s| - 1];
      var x := s[|s| - 1];
      assert s == p + [x];
      var hp := Categorias(p);
      var h := Categorias(s);
      CategoriasEmOrdemDeAparicao(p);
      CategoriasChaves(p);
      IncrementarChaves(hp, x.categoriaProduto);
      forall i | 0 <= i < |hp|
        ensures PrimeiraPosicao(s, hp[i].0) == PrimeiraPosicao(p, hp[i].0) < |p|
      {
        assert TemChave(hp, hp[i].0);
        PrimeiraPosicaoAposAnexar(p, x, hp[i].0);
      }
      if !TemChave(hp, x.categoriaProduto) {
        PrimeiraPosicaoAposAnexar(p, x, x.categoriaProduto);
        assert h == hp + [(x.categoriaProduto, 1)];
      }
      forall i, j | 0 <= i < j < |h| ensures PrimeiraPosicao(s, h[i].0) < PrimeiraPosicao(s, h[j].0) {
        assert h[i].0 == hp[i].0;
        if j < |hp| {
          assert h[j].0 == hp[j].0;
        }
      }
    }
  }

  /** `calcularMetricas`: the list length, the low-stock count and the category histogram. */
  function CalcularMetricas(s: seq<Produto>): (m: Metricas)
    ensures m.total == |s|
    ensures m.baixoEstoque == |Filter(s, EstoqueBaixo)| && 0 <= m.baixoEstoque <= m.total
    ensures ChavesDistintas(m.categorias)
    ensures forall k :: TemChave(m.categorias, k) <==> TemCategoria(s, k)
    ensures forall c :: Contagem(m.categorias, c) == Ocorrencias(s, c)
    ensures forall i :: 0 <= i < |m.categorias| ==> m.categorias[i].1 >= 1
    ensures Sum(m.categorias, QuantidadeDe) == m.total
    ensures s == [] ==> m == Metricas(0, 0, [])
  {
    CategoriasSpec(s);
    Metricas(|s|, |Filter(s, EstoqueBaixo)|, Categorias(s))
  }

  /** `p.quantidadeEstoque < 10`. */
  predicate EstoqueBaixo(p: Produto) {
    p.quantidadeEstoque < LIMITE_ESTOQUE_BAIXO
  }

  /** The low-stock count is the number of products whose stock chip is not in the available band. */
  lemma BaixoEstoqueSaoOsNaoDisponiveis(s: seq<Produto>)
    ensures CalcularMetricas(s).baixoEstoque == |Filter(s, (p: Produto) => FaixaDe(p.quantidadeEstoque) != Disponivel)|
  {
    FilterSamePredicate(s, EstoqueBaixo, (p: Produto) => FaixaDe(p.quantidadeEstoque) != Disponivel);
  }

  lemma {:induction false} FilterSamePredicate<T>(s: seq<T>, p: T -> bool, q: T -> bool)
    requires forall x :: p(x) == q(x)
    ensures Filter(s, p) == Filter(s, q)
  {
    if s != [] {
      FilterSamePredicate(s[1..], p, q);
    }
  }
}
