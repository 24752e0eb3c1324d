/** The checkout page (src/Pages/Caixa/index.tsx): the cart kept while selling and the
    sale it turns into. Each `setCarrinho` callback is a function from the old cart to the
    new one. */
module Caixa {
  import opened Tipos
  import Db

  /** `prev.find(i => i.codigo === c)`, as the index of the line found. */
  function Find(cart: seq<ItemCarrinho>, c: string): (r: Option<nat>)
    ensures r.Some? ==> r.value < |cart| && cart[r.value].Codigo() == c
    ensures r.Some? ==> forall j :: 0 <= j < r.value ==> cart[j].Codigo() != c
    ensures r.None? ==> forall j :: 0 <= j < |cart| ==> cart[j].Codigo() != c
  {
    if cart == [] then None
    else if cart[0].Codigo() == c then Some(0)
    else match Find(cart[1..], c)
      case None => None
      case Some(k) => Some(k + 1)
  }

  /** No product code appears on two lines. */
  predicate CodigosUnicos(cart: seq<ItemCarrinho>)
  {
    forall i, j :: 0 <= i < j < |cart| ==> cart[i].Codigo() != cart[j].Codigo()
  }

  /** Every line asks for at least one unit and no more than the line's product has. */
  predicate QuantidadesValidas(cart: seq<ItemCarrinho>)
  {
    forall i :: 0 <= i < |cart| ==> 1 <= cart[i].quantidade <= cart[i].produto.estoque
  }

  predicate CarrinhoValido(cart: seq<ItemCarrinho>)
  {
    CodigosUnicos(cart) && QuantidadesValidas(cart)
  }

  /** The `prev.map` that adds one unit to the lines with code `c`. */
  function Incrementar(cart: seq<ItemCarrinho>, c: string): (r: seq<ItemCarrinho>)
  {
    seq(|cart|, i requires 0 <= i < |cart| =>
      if cart[i].Codigo() == c then cart[i].(quantidade := cart[i].quantidade + 1) else cart[i])
  }

  /** `handleSelect`: add the selected product `p` to the cart. */
  function HandleSelect(cart: seq<ItemCarrinho>, p: Produto): (r: seq<ItemCarrinho>)
    // no stock: the cart stays as it was
    ensures p.estoque <= 0 ==> r == cart
    // a new product goes at the end with one unit
    ensures p.estoque > 0 && Find(cart, p.codigo).None? ==> r == cart + [ItemCarrinho(p, 1)]
    // one more unit would exceed the stock: the cart stays as it was
    ensures p.estoque > 0 && Find(cart, p.codigo).Some? && cart[Find(cart, p.codigo).value].quantidade + 1 > p.estoque
      ==> r == cart
    // otherwise only the quantity of the product's line grows by one
    ensures p.estoque > 0 && Find(cart, p.codigo).Some? && cart[Find(cart, p.codigo).value].quantidade + 1 <= p.estoque
      ==> |r| == |cart|
          && (forall i :: 0 <= i < |r| ==> r[i].produto == cart[i].produto)
          && (forall i :: 0 <= i < |r| && cart[i].Codigo() != p.codigo ==> r[i] == cart[i])
          && (forall i :: 0 <= i < |r| && cart[i].Codigo() == p.codigo ==> r[i].quantidade == cart[i].quantidade + 1)
  {
    if p.estoque <= 0 then cart
    else match Find(cart, p.codigo)
      case Some(k) => if cart[k].quantidade + 1 > p.estoque then cart else Incrementar(cart, p.codigo)
      case None => cart + [ItemCarrinho(p, 1)]
  }

  /** `removerDoCarrinho`: `prev.filter(i => i.codigo !== c)`. */
  function RemoverDoCarrinho(cart: seq<ItemCarrinho>, c: string): (r: seq<ItemCarrinho>)
  {
    if cart == [] then []
    else (if cart[0].Codigo() != c then [cart[0]] else []) + RemoverDoCarrinho(cart[1..], c)
  }

  /** A line remains exactly when it was in the cart with another code. */
  lemma {:induction false} RemoverMembership(cart: seq<ItemCarrinho>, c: string)
    ensures forall x :: x in RemoverDoCarrinho(cart, c) <==> x in cart && x.Codigo() != c
    ensures |RemoverDoCarrinho(cart, c)| <= |cart|
  {
    if cart != [] {
      RemoverMembership(cart[1..], c);
      assert cart == [cart[0]] + cart[1..];
    }
  }

  /** `alterarQuantidade`: set the quantity of the lines with code `c` to `q`, raised to
      at least 1 and then capped at the line's stock. */
  function AlterarQuantidade(cart: seq<ItemCarrinho>, c: string, q: int): (r: seq<ItemCarrinho>)
    ensures |r| == |cart|
    ensures forall i :: 0 <= i < |r| ==> r[i].produto == cart[i].produto
    ensures forall i :: 0 <= i < |r| && cart[i].Codigo() != c ==> r[i] == cart[i]
    // the new quantity is the smaller of max(q, 1) and the stock
    ensures forall i :: 0 <= i < |r| && cart[i].Codigo() == c ==>
      && r[i].quantidade <= cart[i].produto.estoque
      && r[i].quantidade <= (if q >= 1 then q else 1)
      && (r[i].quantidade == cart[i].produto.estoque || r[i].quantidade == (if q >= 1 then q else 1))
    ensures forall i :: 0 <= i < |r| && cart[i].Codigo() == c && cart[i].produto.estoque >= 1 ==>
      1 <= r[i].quantidade <= cart[i].produto.estoque
  {
    seq(|cart|, i requires 0 <= i < |cart| =>
      if cart[i].Codigo() == c
      then cart[i].(quantidade := Min(Max(q, 1), cart[i].produto.estoque))
      else cart[i])
  }

  /** `calcularTotal`: `carrinho.reduce((soma, item) => soma + precoVenda * quantidade, 0)`,
      with prices in cents. */
  function CalcularTotal(cart: seq<ItemCarrinho>): (r: int)
    ensures cart == [] ==> r == 0
    ensures (forall i :: 0 <= i < |cart| ==> cart[i].produto.precoVenda >= 0 && cart[i].quantidade >= 0) ==> r >= 0
  {
    if cart == [] then 0
    else CalcularTotal(cart[..|cart| - 1]) + cart[|cart| - 1].produto.precoVenda * cart[|cart| - 1].quantidade
  }

  // ---------------------------------------------------------------------------
  // Properties of the cart operations
  // ---------------------------------------------------------------------------

  /** The total of a cart is the sum of the totals of its parts. */
  lemma {:induction false} TotalConcat(a: seq<ItemCarrinho>, b: seq<ItemCarrinho>)
    ensures CalcularTotal(a + b) == CalcularTotal(a) + CalcularTotal(b)
    decreases |b|
  {
    if b == [] {
      assert a + b == a;
    } else {
      var n := |b| - 1;
      assert (a + b)[..|a + b| - 1] == a + b[..n];
      TotalConcat(a, b[..n]);
    }
  }

  /** Two carts that agree except that line `k` of the second has one unit more differ in
      total by that line's price. */
  lemma {:induction false} TotalOneMore(a: seq<ItemCarrinho>, b: seq<ItemCarrinho>, k: nat)
    requires |a| == |b| && k < |a|
    requires forall i :: 0 <= i < |a| && i != k ==> a[i] == b[i]
    requires b[k] == a[k].(quantidade := a[k].quantidade + 1)
    ensures CalcularTotal(b) == CalcularTotal(a) + a[k].produto.precoVenda
    decreases |a|
  {
    var n := |a| - 1;
    if k < n {
      TotalOneMore(a[..n], b[..n], k);
    } else {
      assert a[..n] == b[..n];
    }
  }

  /** Adding a product raises the total by its price when it is accepted. */
  lemma HandleSelectTotal(cart: seq<ItemCarrinho>, p: Produto)
    requires CodigosUnicos(cart)
    requires forall i :: 0 <= i < |cart| && cart[i].Codigo() == p.codigo ==> cart[i].produto.precoVenda == p.precoVenda
    ensures var r := HandleSelect(cart, p);
      CalcularTotal(r) == CalcularTotal(cart) + (if r == cart then 0 else p.precoVenda)
  {
    var r := HandleSelect(cart, p);
    if p.estoque > 0 {
      match Find(cart, p.codigo)
      case None =>
        TotalConcat(cart, [ItemCarrinho(p, 1)]);
        assert CalcularTotal([ItemCarrinho(p, 1)]) == p.precoVenda by {
          assert [ItemCarrinho(p, 1)][..0] == [];
        }
      case Some(k) =>
        if cart[k].quantidade + 1 <= p.estoque {
          TotalOneMore(cart, r, k);
        }
    }
  }

  /** `handleSelect` keeps the cart valid, provided the selected product does not have
      more stock than the copies already in the cart. */
  lemma HandleSelectKeepsValid(cart: seq<ItemCarrinho>, p: Produto)
    requires CarrinhoValido(cart)
    requires forall i :: 0 <= i < |cart| && cart[i].Codigo() == p.codigo ==> p.estoque <= cart[i].produto.estoque
    ensures CarrinhoValido(HandleSelect(cart, p))
  {
  }

  /** Removal distributes over concatenation. The register page filters its own product
      list the same way (`Cadastro.Excluir`); the two are separate `filter` calls over
      different records, so each has its own lemmas. */
  lemma {:induction false} RemoverConcat(a: seq<ItemCarrinho>, b: seq<ItemCarrinho>, c: string)
    ensures RemoverDoCarrinho(a + b, c) == RemoverDoCarrinho(a, c) + RemoverDoCarrinho(b, c)
    decreases |a|
  {
    if a == [] {
      assert a + b == b;
    } else {
      assert (a + b)[1..] == a[1..] + b;
      RemoverConcat(a[1..], b, c);
    }
  }

  /** Removing the code of a line that no other line shares leaves the lines around it. */
  lemma RemoverMeio(antes: seq<ItemCarrinho>, x: ItemCarrinho, depois: seq<ItemCarrinho>, c: string)
    requires x.Codigo() == c
    requires forall i :: 0 <= i < |antes| ==> antes[i].Codigo() != c
    requires forall i :: 0 <= i < |depois| ==> depois[i].Codigo() != c
    ensures RemoverDoCarrinho(antes + [x] + depois, c) == antes + depois
  {
    assert RemoverDoCarrinho([x], c) == [] by {
      assert [x][1..] == [];
    }
    calc {
      RemoverDoCarrinho(antes + [x] + depois, c);
      { RemoverConcat(antes + [x], depois, c); }
      RemoverDoCarrinho(antes + [x], c) + RemoverDoCarrinho(depois, c);
      { RemoverConcat(antes, [x], c); }
      RemoverDoCarrinho(antes, c) + RemoverDoCarrinho([x], c) + RemoverDoCarrinho(depois, c);
      { RemoverAbsent(antes, c); RemoverAbsent(depois, c); }
      antes + [] + depois;
      { assert antes + [] == antes; }
      antes + depois;
    }
  }

  /** With unique codes, removing code `c` deletes exactly its line and keeps the others
      in order. */
  lemma RemoverDeletesLine(cart: seq<ItemCarrinho>, c: string, j: nat)
    requires CodigosUnicos(cart) && j < |cart| && cart[j].Codigo() == c
    ensures RemoverDoCarrinho(cart, c) == cart[..j] + cart[j + 1..]
  {
    var antes, depois := cart[..j], cart[j + 1..];
    forall i | 0 <= i < |antes| ensures antes[i].Codigo() != c {
      assert antes[i] == cart[i];
    }
    forall i | 0 <= i < |depois| ensures depois[i].Codigo() != c {
      assert depois[i] == cart[j + 1 + i];
    }
    assert cart == antes + [cart[j]] + depois;
    RemoverMeio(antes, cart[j], depois, c);
  }

  lemma {:induction false} RemoverAbsent(cart: seq<ItemCarrinho>, c: string)
    requires forall i :: 0 <= i < |cart| ==> cart[i].Codigo() != c
    ensures RemoverDoCarrinho(cart, c) == cart
    decreases |cart|
  {
    if cart != [] {
      RemoverAbsent(cart[1..], c);
      assert cart == [cart[0]] + cart[1..];
    }
  }

  lemma RemoverKeepsValid(cart: seq<ItemCarrinho>, c: string)
    requires CarrinhoValido(cart)
    ensures CarrinhoValido(RemoverDoCarrinho(cart, c))
  {
    match Find(cart, c)
    case None => RemoverAbsent(cart, c);
    case Some(j) =>
      RemoverDeletesLine(cart, c, j);
      var r := cart[..j] + cart[j + 1..];
      assert forall i :: 0 <= i < |r| ==> r[i] == cart[if i < j then i else i + 1];
  }

  lemma AlterarKeepsValid(cart: seq<ItemCarrinho>, c: string, q: int)
    requires CarrinhoValido(cart)
    ensures CarrinhoValido(AlterarQuantidade(cart, c, q))
  {
  }

  // ---------------------------------------------------------------------------
  // confirmarVenda
  // ---------------------------------------------------------------------------

  /** The record `updateProduto` writes for a line: the line's copy of the product with
      its stock minus the quantity sold. */
  function Baixa(item: ItemCarrinho): (p: Produto)
    ensures p.codigo == item.Codigo()
    ensures p.estoque == item.produto.estoque - item.quantidade
  {
    item.produto.(estoque := item.produto.estoque - item.quantidade)
  }

  /** The "produtos" store after one `updateProduto` per cart line, in cart order. */
  function AplicarBaixas(m: map<string, Produto>, cart: seq<ItemCarrinho>): (r: map<string, Produto>)
    decreases |cart|
  {
    if cart == [] then m else AplicarBaixas(m[cart[0].Codigo() := Baixa(cart[0])], cart[1..])
  }

  /** Products whose code is on no line keep their record (or stay absent). */
  lemma {:induction false} BaixasSkipOthers(m: map<string, Produto>, cart: seq<ItemCarrinho>, k: string)
    requires forall i :: 0 <= i < |cart| ==> cart[i].Codigo() != k
    ensures k in AplicarBaixas(m, cart) <==> k in m
    ensures k in m ==> AplicarBaixas(m, cart)[k] == m[k]
    decreases |cart|
  {
    if cart != [] {
      BaixasSkipOthers(m[cart[0].Codigo() := Baixa(cart[0])], cart[1..], k);
    }
  }

  /** Each cart product ends with the line's stock minus the quantity sold, whatever the
      store held for it before: the stock is not read again at commit. */
  lemma {:induction false} BaixasOnLine(m: map<string, Produto>, cart: seq<ItemCarrinho>, i: nat)
    requires CodigosUnicos(cart) && i < |cart|
    ensures cart[i].Codigo() in AplicarBaixas(m, cart)
    ensures AplicarBaixas(m, cart)[cart[i].Codigo()] == Baixa(cart[i])
    ensures AplicarBaixas(m, cart)[cart[i].Codigo()].estoque == cart[i].produto.estoque - cart[i].quantidade
    ensures QuantidadesValidas(cart) ==> AplicarBaixas(m, cart)[cart[i].Codigo()].estoque >= 0
    decreases |cart|
  {
    var m' := m[cart[0].Codigo() := Baixa(cart[0])];
    if i == 0 {
      BaixasSkipOthers(m', cart[1..], cart[0].Codigo());
    } else {
      BaixasOnLine(m', cart[1..], i - 1);
    }
  }

  /** The page's own product list after `setProdutos`: a product whose code is on a line
      gets the first such line's stock minus its quantity; the rest stay as they were. */
  function AtualizarLista(produtos: seq<Produto>, cart: seq<ItemCarrinho>): (r: seq<Produto>)
    ensures |r| == |produtos|
    ensures forall i, k ::
              0 <= i < |r| && 0 <= k < |cart| && cart[k].Codigo() == produtos[i].codigo
              && (forall j :: 0 <= j < k ==> cart[j].Codigo() != produtos[i].codigo)
              ==> r[i] == produtos[i].(estoque := cart[k].produto.estoque - cart[k].quantidade)
    ensures forall i ::
              0 <= i < |r| && (forall k :: 0 <= k < |cart| ==> cart[k].Codigo() != produtos[i].codigo)
              ==> r[i] == produtos[i]
  {
    seq(|produtos|, i requires 0 <= i < |produtos| =>
      match Find(cart, produtos[i].codigo)
      case Some(k) => produtos[i].(estoque := cart[k].produto.estoque - cart[k].quantidade)
      case None => produtos[i])
  }

  /** `confirmarVenda`: write each line's stock back, record one sale built from the cart,
      and empty the cart. `agora` stands for `new Date().toISOString()`. */
  method ConfirmarVenda(db: Db.Database, produtos: seq<Produto>, carrinho: seq<ItemCarrinho>, forma: Pagamento, agora: string)
    returns (novosProdutos: seq<Produto>, novoCarrinho: seq<ItemCarrinho>)
    requires db.Ready()
    modifies db
    ensures db.Ready() && db.version == old(db.version)
    ensures db.produtos == AplicarBaixas(old(db.produtos), carrinho)
    ensures db.vendas == old(db.vendas)[old(db.proximoId) := Venda(agora, carrinho, CalcularTotal(carrinho), forma)]
    ensures db.proximoId == old(db.proximoId) + 1
    ensures novosProdutos == AtualizarLista(produtos, carrinho)
    ensures novoCarrinho == []
  {
    // 1) stock updates
    var i := 0;
    while i < |carrinho|
      invariant 0 <= i <= |carrinho|
      invariant db.Ready() && db.version == old(db.version)
      invariant AplicarBaixas(db.produtos, carrinho[i..]) == AplicarBaixas(old(db.produtos), carrinho)
      invariant db.vendas == old(db.vendas) && db.proximoId == old(db.proximoId)
    {
      assert carrinho[i..][1..] == carrinho[i + 1..];
      db.UpdateProduto(Baixa(carrinho[i]));
      i := i + 1;
    }
    novosProdutos := AtualizarLista(produtos, carrinho);
    // 2) the sale
    var total := CalcularTotal(carrinho);
    var _ := db.AddVenda(Venda(agora, carrinho, total, forma));
    // 3) the cart is emptied
    novoCarrinho := [];
  }
}
