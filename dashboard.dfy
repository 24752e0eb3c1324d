/** The sales dashboard (src/Pages/DashBoard/index.tsx): revenue per payment method, the
    five best-selling products, and the "Alta Venda" alert, all computed from the list of
    every sale. Money is in integer cents. */
module Dashboard {
  import opened Tipos

  // ---------------------------------------------------------------------------
  // Revenue per payment method
  // ---------------------------------------------------------------------------

  /** The revenue of the sales paid with `m`. */
  function Receita(vendas: seq<Venda>, m: Pagamento): (r: int)
  {
    if vendas == [] then 0
    else
      var v := vendas[|vendas| - 1];
      Receita(vendas[..|vendas| - 1], m) + (if v.pagamento == m then v.total else 0)
  }

  /** The revenue of all sales. */
  function ReceitaTotal(vendas: seq<Venda>): (r: int)
  {
    if vendas == [] then 0 else ReceitaTotal(vendas[..|vendas| - 1]) + vendas[|vendas| - 1].total
  }

  /** The three methods split the whole revenue between them. */
  lemma {:induction false} ReceitaPartition(vendas: seq<Venda>)
    ensures Receita(vendas, Dinheiro) + Receita(vendas, Cartao) + Receita(vendas, PIX) == ReceitaTotal(vendas)
  {
    if vendas != [] {
      ReceitaPartition(vendas[..|vendas| - 1]);
    }
  }

  /** The `recibos` dictionary: the three keys start at 0 and each sale adds its total
      under its method. The `|| 0` fallback never applies, as every method is a key. */
  method Recibos(todas: seq<Venda>) returns (recibos: map<Pagamento, int>)
    ensures recibos.Keys == {Dinheiro, Cartao, PIX}
    ensures forall m :: m in recibos ==> recibos[m] == Receita(todas, m)
  {
    recibos := map[Dinheiro := 0, Cartao := 0, PIX := 0];
    var i := 0;
    while i < |todas|
      invariant 0 <= i <= |todas|
      invariant recibos.Keys == {Dinheiro, Cartao, PIX}
      invariant forall m :: m in recibos ==> recibos[m] == Receita(todas[..i], m)
    {
      var v := todas[i];
      assert v.pagamento == Dinheiro || v.pagamento == Cartao || v.pagamento == PIX;
      assert todas[..i + 1][..i] == todas[..i];
      recibos := recibos[v.pagamento := recibos[v.pagamento] + v.total];
      i := i + 1;
    }
    assert todas[..|todas|] == todas;
  }

  datatype PagamentoBreakdown = PagamentoBreakdown(metodo: Pagamento, valor: int)

  /** `Object.keys(recibos).map(...)`: the methods in the order the dictionary was
      written, Dinheiro, Cartão, PIX. */
  function Pagamentos(recibos: map<Pagamento, int>): (r: seq<PagamentoBreakdown>)
    requires recibos.Keys == {Dinheiro, Cartao, PIX}
    ensures |r| == 3
    ensures forall i :: 0 <= i < |r| ==> r[i].metodo in recibos && r[i].valor == recibos[r[i].metodo]
    ensures forall i, j :: 0 <= i < j < |r| ==> r[i].metodo != r[j].metodo
  {
    [PagamentoBreakdown(Dinheiro, recibos[Dinheiro]),
     PagamentoBreakdown(Cartao, recibos[Cartao]),
     PagamentoBreakdown(PIX, recibos[PIX])]
  }

  // ---------------------------------------------------------------------------
  // Units sold per product name
  // ---------------------------------------------------------------------------

  /** Units of the product named `nome` on a list of sale lines. */
  function QtdItens(itens: seq<ItemCarrinho>, nome: string): (r: int)
  {
    if itens == [] then 0
    else
      var it := itens[|itens| - 1];
      QtdItens(itens[..|itens| - 1], nome) + (if it.produto.nome == nome then it.quantidade else 0)
  }

  /** Units of the product named `nome` over every line of every sale. */
  function QtdVendida(vendas: seq<Venda>, nome: string): (r: int)
  {
    if vendas == [] then 0 else QtdVendida(vendas[..|vendas| - 1], nome) + QtdItens(vendas[|vendas| - 1].itens, nome)
  }

  /** The names on a list of sale lines. */
  function NomesItens(itens: seq<ItemCarrinho>): (r: set<string>)
  {
    if itens == [] then {} else NomesItens(itens[..|itens| - 1]) + {itens[|itens| - 1].produto.nome}
  }

  /** The names on any line of any sale. */
  function Nomes(vendas: seq<Venda>): (r: set<string>)
  {
    if vendas == [] then {} else Nomes(vendas[..|vendas| - 1]) + NomesItens(vendas[|vendas| - 1].itens)
  }

  /** `ordem` followed by the names of `itens` not seen before, in order of first
      appearance: the order in which the lines write new keys. */
  function OrdemItens(ordem: seq<string>, itens: seq<ItemCarrinho>): (r: seq<string>)
    ensures ordem <= r
  {
    if itens == [] then ordem
    else
      var o, nome := OrdemItens(ordem, itens[..|itens| - 1]), itens[|itens| - 1].produto.nome;
      if nome in o then o else o + [nome]
  }

  /** The names sold, in order of first appearance over the sales and their lines. */
  function PrimeiraVez(vendas: seq<Venda>): (r: seq<string>)
  {
    if vendas == [] then [] else OrdemItens(PrimeiraVez(vendas[..|vendas| - 1]), vendas[|vendas| - 1].itens)
  }

  /** The names listed first for a prefix of the sales stay first, in the same order. */
  lemma {:induction false} PrimeiraVezPrefix(vendas: seq<Venda>, i: nat)
    requires i <= |vendas|
    ensures PrimeiraVez(vendas[..i]) <= PrimeiraVez(vendas)
    decreases |vendas|
  {
    if i < |vendas| {
      var n := |vendas| - 1;
      assert vendas[..n][..i] == vendas[..i];
      PrimeiraVezPrefix(vendas[..n], i);
    } else {
      assert vendas[..i] == vendas;
    }
  }

  /** Each name is listed once, and exactly the names sold are listed. */
  lemma {:induction false} OrdemItensMembership(ordem: seq<string>, itens: seq<ItemCarrinho>)
    requires forall i, j :: 0 <= i < j < |ordem| ==> ordem[i] != ordem[j]
    ensures forall k :: k in OrdemItens(ordem, itens) <==> k in ordem || k in NomesItens(itens)
    ensures forall i, j :: 0 <= i < j < |OrdemItens(ordem, itens)| ==> OrdemItens(ordem, itens)[i] != OrdemItens(ordem, itens)[j]
  {
    if itens != [] {
      OrdemItensMembership(ordem, itens[..|itens| - 1]);
    }
  }

  lemma {:induction false} PrimeiraVezMembership(vendas: seq<Venda>)
    ensures forall k :: k in PrimeiraVez(vendas) <==> k in Nomes(vendas)
    ensures forall i, j :: 0 <= i < j < |PrimeiraVez(vendas)| ==> PrimeiraVez(vendas)[i] != PrimeiraVez(vendas)[j]
  {
    if vendas != [] {
      var n := |vendas| - 1;
      PrimeiraVezMembership(vendas[..n]);
      OrdemItensMembership(PrimeiraVez(vendas[..n]), vendas[n].itens);
    }
  }

  lemma {:induction false} NomesItensMembership(itens: seq<ItemCarrinho>, nome: string)
    ensures nome in NomesItens(itens) <==> exists j :: 0 <= j < |itens| && itens[j].produto.nome == nome
  {
    if itens != [] {
      var n := |itens| - 1;
      NomesItensMembership(itens[..n], nome);
      if nome in NomesItens(itens[..n]) {
        var j :| 0 <= j < n && itens[..n][j].produto.nome == nome;
        assert itens[j].produto.nome == nome;
      }
    }
  }

  /** A name is counted exactly when some line of some sale carries it. */
  lemma {:induction false} NomesMembership(vendas: seq<Venda>, nome: string)
    ensures nome in Nomes(vendas) <==>
      exists i, j :: 0 <= i < |vendas| && 0 <= j < |vendas[i].itens| && vendas[i].itens[j].produto.nome == nome
  {
    if vendas != [] {
      var n := |vendas| - 1;
      NomesMembership(vendas[..n], nome);
      NomesItensMembership(vendas[n].itens, nome);
      if nome in Nomes(vendas[..n]) {
        var i, j :| 0 <= i < n && 0 <= j < |vendas[..n][i].itens| && vendas[..n][i].itens[j].produto.nome == nome;
        assert vendas[i].itens[j].produto.nome == nome;
      }
    }
  }

  lemma {:induction false} QtdItensAbsent(itens: seq<ItemCarrinho>, nome: string)
    requires nome !in NomesItens(itens)
    ensures QtdItens(itens, nome) == 0
  {
    if itens != [] {
      QtdItensAbsent(itens[..|itens| - 1], nome);
    }
  }

  lemma {:induction false} QtdVendidaAbsent(vendas: seq<Venda>, nome: string)
    requires nome !in Nomes(vendas)
    ensures QtdVendida(vendas, nome) == 0
  {
    if vendas != [] {
      QtdVendidaAbsent(vendas[..|vendas| - 1], nome);
      QtdItensAbsent(vendas[|vendas| - 1].itens, nome);
    }
  }

  /** The dictionary and key order are in step: the keys are exactly the listed names,
      each listed once. */
  ghost predicate EmOrdem(contador: map<string, int>, ordem: seq<string>)
  {
    (forall k :: k in contador <==> k in ordem)
    && (forall i, j :: 0 <= i < j < |ordem| ==> ordem[i] != ordem[j])
  }

  /** Progress of the inner `forEach`: the first `j` lines of `itens` are added to
      `contador0`. */
  ghost predicate Contado(contador0: map<string, int>, ordem0: seq<string>, itens: seq<ItemCarrinho>, j: nat,
                          contador: map<string, int>, ordem: seq<string>)
    requires j <= |itens|
  {
    && EmOrdem(contador, ordem)
    && ordem == OrdemItens(ordem0, itens[..j])
    && contador.Keys == contador0.Keys + NomesItens(itens[..j])
    && (forall k :: k in contador ==>
          contador[k] == (if k in contador0 then contador0[k] else 0) + QtdItens(itens[..j], k))
  }

  /** Adding line `j` under its name, as `(contador[nome] || 0) + quantidade`. */
  lemma ContadoStep(contador0: map<string, int>, ordem0: seq<string>, itens: seq<ItemCarrinho>, j: nat,
                    contador: map<string, int>, ordem: seq<string>)
    requires j < |itens| && Contado(contador0, ordem0, itens, j, contador, ordem)
    ensures var nome, q := itens[j].produto.nome, itens[j].quantidade;
      && (nome in contador ==> Contado(contador0, ordem0, itens, j + 1, contador[nome := contador[nome] + q], ordem))
      && (nome !in contador ==> Contado(contador0, ordem0, itens, j + 1, contador[nome := q], ordem + [nome]))
  {
    var nome := itens[j].produto.nome;
    assert itens[..j + 1][..j] == itens[..j];
    if nome !in contador {
      QtdItensAbsent(itens[..j], nome);
    }
  }

  /** The inner `forEach` over one sale's lines. */
  method ContarItens(contador0: map<string, int>, ordem0: seq<string>, itens: seq<ItemCarrinho>)
      returns (contador: map<string, int>, ordem: seq<string>)
    requires EmOrdem(contador0, ordem0)
    ensures EmOrdem(contador, ordem)
    ensures contador.Keys == contador0.Keys + NomesItens(itens)
    ensures ordem == OrdemItens(ordem0, itens)
    ensures forall k :: k in contador ==>
      contador[k] == (if k in contador0 then contador0[k] else 0) + QtdItens(itens, k)
  {
    contador, ordem := contador0, ordem0;
    var j := 0;
    while j < |itens|
      invariant 0 <= j <= |itens|
      invariant Contado(contador0, ordem0, itens, j, contador, ordem)
    {
      var nome := itens[j].produto.nome;
      ContadoStep(contador0, ordem0, itens, j, contador, ordem);
      if nome in contador {
        contador := contador[nome := contador[nome] + itens[j].quantidade];
      } else {
        contador := contador[nome := itens[j].quantidade];
        ordem := ordem + [nome];
      }
      j := j + 1;
    }
    assert itens[..|itens|] == itens;
  }

  /** The `contador` dictionary, built by the nested `forEach`, together with the order in
      which its keys were first written (the order `Object.entries` lists them in). */
  method Contador(todas: seq<Venda>) returns (contador: map<string, int>, ordem: seq<string>)
    ensures contador.Keys == Nomes(todas)
    ensures ordem == PrimeiraVez(todas)
    ensures forall k :: k in contador <==> k in ordem
    ensures forall i, j :: 0 <= i < j < |ordem| ==> ordem[i] != ordem[j]
    ensures forall k :: k in contador ==> contador[k] == QtdVendida(todas, k)
  {
    contador, ordem := map[], [];
    var i := 0;
    while i < |todas|
      invariant 0 <= i <= |todas|
      invariant contador.Keys == Nomes(todas[..i])
      invariant EmOrdem(contador, ordem)
      invariant ordem == PrimeiraVez(todas[..i])
      invariant forall k :: k in contador ==> contador[k] == QtdVendida(todas[..i], k)
    {
      ghost var antes := contador;
      contador, ordem := ContarItens(contador, ordem, todas[i].itens);
      assert todas[..i + 1][..i] == todas[..i];
      forall k | k in contador ensures contador[k] == QtdVendida(todas[..i + 1], k) {
        if k !in antes {
          QtdVendidaAbsent(todas[..i], k);
        }
      }
      i := i + 1;
    }
    assert todas[..|todas|] == todas;
  }

  // ---------------------------------------------------------------------------
  // Top five
  // ---------------------------------------------------------------------------

  datatype ProdutoTop = ProdutoTop(nome: string, quantidade: int)

  /** `Object.entries(contador).map(([nome, quantidade]) => ({ nome, quantidade }))` */
  function Entradas(contador: map<string, int>, ordem: seq<string>): (r: seq<ProdutoTop>)
    requires forall k :: k in ordem ==> k in contador
    ensures |r| == |ordem|
    ensures forall i :: 0 <= i < |r| ==> r[i].nome == ordem[i] && r[i].quantidade == contador[ordem[i]]
  {
    seq(|ordem|, i requires 0 <= i < |ordem| => ProdutoTop(ordem[i], contador[ordem[i]]))
  }

  /** Non-increasing in quantity. */
  predicate Decrescente(s: seq<ProdutoTop>)
  {
    forall i, j :: 0 <= i < j < |s| ==> s[i].quantidade >= s[j].quantidade
  }

  /** One step of a stable sort by `b.quantidade - a.quantidade`: `x` goes before the
      first entry that does not sell more than it. */
  function Inserir(x: ProdutoTop, s: seq<ProdutoTop>): (r: seq<ProdutoTop>)
    ensures |r| == |s| + 1
  {
    if s == [] then [x]
    else if x.quantidade >= s[0].quantidade then [x] + s
    else [s[0]] + Inserir(x, s[1..])
  }

  lemma {:induction false} InserirPermutes(x: ProdutoTop, s: seq<ProdutoTop>)
    ensures multiset(Inserir(x, s)) == multiset(s) + multiset{x}
  {
    if s != [] && x.quantidade < s[0].quantidade {
      InserirPermutes(x, s[1..]);
      assert s == [s[0]] + s[1..];
    }
  }

  /** Inserting an entry into entries that sell no more than `teto` keeps that bound. */
  lemma {:induction false} InserirBounded(x: ProdutoTop, s: seq<ProdutoTop>, teto: int)
    requires x.quantidade <= teto
    requires forall k :: 0 <= k < |s| ==> s[k].quantidade <= teto
    ensures forall k :: 0 <= k < |Inserir(x, s)| ==> Inserir(x, s)[k].quantidade <= teto
  {
    if s != [] && x.quantidade < s[0].quantidade {
      InserirBounded(x, s[1..], teto);
    }
  }

  /** An entry selling at least as much as every entry of a sorted list can go in front. */
  lemma DecrescenteCons(h: ProdutoTop, t: seq<ProdutoTop>)
    requires Decrescente(t)
    requires forall k :: 0 <= k < |t| ==> t[k].quantidade <= h.quantidade
    ensures Decrescente([h] + t)
  {
    var r := [h] + t;
    forall i, j | 0 <= i < j < |r| ensures r[i].quantidade >= r[j].quantidade {
      assert r[j] == t[j - 1];
      if i > 0 {
        assert r[i] == t[i - 1];
      }
    }
  }

  lemma {:induction false} InserirKeepsOrder(x: ProdutoTop, s: seq<ProdutoTop>)
    requires Decrescente(s)
    ensures Decrescente(Inserir(x, s))
  {
    if s == [] {
    } else if x.quantidade >= s[0].quantidade {
      DecrescenteCons(x, s);
    } else {
      var cauda := s[1..];
      assert Decrescente(cauda) by {
        forall i, j | 0 <= i < j < |cauda| ensures cauda[i].quantidade >= cauda[j].quantidade {
          assert cauda[i] == s[i + 1] && cauda[j] == s[j + 1];
        }
      }
      assert forall k :: 0 <= k < |cauda| ==> cauda[k].quantidade <= s[0].quantidade by {
        forall k | 0 <= k < |cauda| ensures cauda[k].quantidade <= s[0].quantidade {
          assert cauda[k] == s[k + 1];
        }
      }
      InserirKeepsOrder(x, cauda);
      InserirBounded(x, cauda, s[0].quantidade);
      DecrescenteCons(s[0], Inserir(x, cauda));
    }
  }

  /** `.sort((a, b) => b.quantidade - a.quantidade)` */
  function Ordenar(s: seq<ProdutoTop>): (r: seq<ProdutoTop>)
    ensures |r| == |s|
  {
    if s == [] then [] else Inserir(s[0], Ordenar(s[1..]))
  }

  /** The sort is a permutation of its input, in non-increasing order. */
  lemma {:induction false} OrdenarCorrect(s: seq<ProdutoTop>)
    ensures multiset(Ordenar(s)) == multiset(s)
    ensures Decrescente(Ordenar(s))
  {
    if s != [] {
      OrdenarCorrect(s[1..]);
      InserirPermutes(s[0], Ordenar(s[1..]));
      InserirKeepsOrder(s[0], Ordenar(s[1..]));
      assert s == [s[0]] + s[1..];
    }
  }

  /** `top`: the entries sorted by quantity, first five kept. */
  function Top(entradas: seq<ProdutoTop>): (r: seq<ProdutoTop>)
  {
    Ordenar(entradas)[..Min(5, |entradas|)]
  }

  /** In a non-increasing sequence every entry of a prefix sells at least as much as every
      entry after it. */
  lemma PrefixDominates(o: seq<ProdutoTop>, n: nat)
    requires Decrescente(o) && n <= |o|
    ensures forall e, i :: e in multiset(o[n..]) && 0 <= i < n ==> o[i].quantidade >= e.quantidade
  {
    forall e, i | e in multiset(o[n..]) && 0 <= i < n ensures o[i].quantidade >= e.quantidade {
      assert e in o[n..];
      var k :| 0 <= k < |o[n..]| && o[n..][k] == e;
      assert o[n + k] == e;
    }
  }

  /** Splitting a sequence splits its multiset. */
  lemma SplitMultiset(o: seq<ProdutoTop>, n: nat)
    requires n <= |o|
    ensures multiset(o) - multiset(o[..n]) == multiset(o[n..])
    ensures multiset(o[..n]) <= multiset(o)
  {
    assert o == o[..n] + o[n..];
  }

  /** `top` holds at most five entries, in non-increasing order, all taken from the input,
      and every entry kept sells at least as much as every entry left out. */
  lemma TopCorrect(entradas: seq<ProdutoTop>)
    ensures |Top(entradas)| == Min(5, |entradas|)
    ensures Decrescente(Top(entradas))
    ensures multiset(Top(entradas)) <= multiset(entradas)
    ensures forall e, i :: e in multiset(entradas) - multiset(Top(entradas)) && 0 <= i < |Top(entradas)| ==>
      Top(entradas)[i].quantidade >= e.quantidade
  {
    var o := Ordenar(entradas);
    var n := Min(5, |entradas|);
    OrdenarCorrect(entradas);
    SplitMultiset(o, n);
    PrefixDominates(o, n);
    assert Top(entradas) == o[..n];
  }

  /** A counted name with no entry in `top` sold no more than any entry of `top`. */
  lemma TopDominatesCounter(contador: map<string, int>, ordem: seq<string>, nome: string)
    requires forall k :: k in contador <==> k in ordem
    requires nome in contador
    requires forall i :: 0 <= i < |Top(Entradas(contador, ordem))| ==> Top(Entradas(contador, ordem))[i].nome != nome
    ensures forall i :: 0 <= i < |Top(Entradas(contador, ordem))| ==>
      Top(Entradas(contador, ordem))[i].quantidade >= contador[nome]
  {
    var entradas := Entradas(contador, ordem);
    var top := Top(entradas);
    TopCorrect(entradas);
    var e := ProdutoTop(nome, contador[nome]);
    var k :| 0 <= k < |ordem| && ordem[k] == nome;
    assert entradas[k] == e;
    assert e !in top;
    assert e in multiset(entradas) - multiset(top);
  }

  // ---------------------------------------------------------------------------
  // Alerts
  // ---------------------------------------------------------------------------

  datatype Nivel = Info | Warning | Danger
  datatype Alerta = Alerta(tipo: string, mensagem: string, nivel: Nivel)

  /** The "Alta Venda" condition: the best seller sold more than 100 units. */
  predicate AltaVenda(top: seq<ProdutoTop>)
  {
    |top| > 0 && top[0].quantidade > 100
  }

  /** The "Alta Venda" rule pushing onto `novosAlertas`. */
  method AlertasDeVenda(top: seq<ProdutoTop>) returns (novosAlertas: seq<Alerta>)
    ensures |novosAlertas| <= 1
    ensures novosAlertas != [] <==> AltaVenda(top)
    ensures novosAlertas != [] ==> novosAlertas[0].tipo == "Alta Venda" && novosAlertas[0].nivel == Info
  {
    novosAlertas := [];
    if |top| > 0 && top[0].quantidade > 100 {
      var mensagem := "O produto \"" + top[0].nome + "\" teve vendas muito acima do normal.";
      novosAlertas := novosAlertas + [Alerta("Alta Venda", mensagem, Info)];
    }
  }

  /** The alert fires exactly when some counted product sold more than 100 units. */
  lemma AltaVendaIff(entradas: seq<ProdutoTop>)
    ensures AltaVenda(Top(entradas)) <==> exists i :: 0 <= i < |entradas| && entradas[i].quantidade > 100
  {
    var top := Top(entradas);
    TopCorrect(entradas);
    if AltaVenda(top) {
      assert top[0] in multiset(entradas);
      var i :| 0 <= i < |entradas| && entradas[i] == top[0];
    }
    if exists i :: 0 <= i < |entradas| && entradas[i].quantidade > 100 {
      var i :| 0 <= i < |entradas| && entradas[i].quantidade > 100;
      var e := entradas[i];
      assert |top| > 0;
      if e in multiset(top) {
        var j :| 0 <= j < |top| && top[j] == e;
        assert top[0].quantidade >= e.quantidade;
      } else {
        assert e in multiset(entradas) - multiset(top);
      }
    }
  }
}
