/** The product register page (src/Pages/CadastroDeProdutos/index.tsx): the checks a
    submitted product must pass, the write to the store, the page's own product list, and
    the mapping of spreadsheet rows to products on import. Each `setProdutos` callback is
    a function from the old list to the new one. */
module Cadastro {
  import opened Tipos
  import StringOrder
  import Db

  const SEM_CATEGORIA: string := "SEM CATEGORIA"
  const ERRO_EAN_FORMATO: string := "EAN-13 deve ter 13 dígitos."
  const ERRO_CODIGO_EXISTE: string := "Código já existe."
  const ERRO_EAN_EXISTE: string := "EAN já cadastrado."

  /** `/^\d{13}$/.test(s)`: exactly thirteen characters, each an ASCII digit. */
  predicate Ean13(s: string)
  {
    |s| == 13 && forall i :: 0 <= i < |s| ==> '0' <= s[i] <= '9'
  }

  /** `produtos.some(p => p.codigo === c)` */
  predicate CodigoExiste(produtos: seq<Produto>, c: string)
  {
    exists i :: 0 <= i < |produtos| && produtos[i].codigo == c
  }

  /** `produtos.some(p => p.ean === e)` */
  predicate EanExiste(produtos: seq<Produto>, e: string)
  {
    exists i :: 0 <= i < |produtos| && produtos[i].ean == e
  }

  /** No code appears on two entries of the list. The store is keyed by `codigo`, so
      every way the list is rebuilt keeps this. */
  predicate CodigosUnicos(produtos: seq<Produto>)
  {
    forall i, j :: 0 <= i < j < |produtos| ==> produtos[i].codigo != produtos[j].codigo
  }

  /** Codes and EANs are each unique in the list: what the checks for a new product
      keep, though an edit or an import can repeat an EAN. */
  predicate Unicos(produtos: seq<Produto>)
  {
    CodigosUnicos(produtos)
    && forall i, j :: 0 <= i < j < |produtos| ==> produtos[i].ean != produtos[j].ean
  }

  /** The `Errors` dictionary, restricted to the two fields `handleSubmit` fills. */
  datatype Erros = Erros(codigo: Option<string>, ean: Option<string>)
  {
    /** `Object.keys(newErrors).length` is 0. */
    predicate Vazio() { codigo.None? && ean.None? }
  }

  /** The errors `handleSubmit` collects for `novo`. */
  function Validar(novo: Produto, produtos: seq<Produto>, editando: bool): (e: Erros)
    // the submission passes exactly when the EAN has 13 digits and, for a new product,
    // neither its code nor its EAN is already in the list
    ensures e.Vazio() <==>
      Ean13(novo.ean) && (editando || (!CodigoExiste(produtos, novo.codigo) && !EanExiste(produtos, novo.ean)))
    ensures e.codigo.Some? <==> !editando && CodigoExiste(produtos, novo.codigo)
    // a duplicate EAN is reported over a malformed one
    ensures !editando && EanExiste(produtos, novo.ean) ==> e.ean == Some(ERRO_EAN_EXISTE)
    ensures !Ean13(novo.ean) && !(!editando && EanExiste(produtos, novo.ean)) ==> e.ean == Some(ERRO_EAN_FORMATO)
  {
    Erros(
      if !editando && CodigoExiste(produtos, novo.codigo) then Some(ERRO_CODIGO_EXISTE) else None,
      if !editando && EanExiste(produtos, novo.ean) then Some(ERRO_EAN_EXISTE)
      else if !Ean13(novo.ean) then Some(ERRO_EAN_FORMATO)
      else None)
  }

  /** `{ ...novo, categoria: novo.categoria || "SEM CATEGORIA" }` */
  function Normalizar(novo: Produto): (p: Produto)
    ensures novo.categoria == "" ==> p.categoria == SEM_CATEGORIA
    ensures novo.categoria != "" ==> p.categoria == novo.categoria
    ensures p == novo.(categoria := p.categoria)
  {
    if novo.categoria == "" then novo.(categoria := SEM_CATEGORIA) else novo
  }

  /** `prev.map(p => p.codigo === salvo.codigo ? salvo : p)` */
  function Editar(produtos: seq<Produto>, salvo: Produto): (r: seq<Produto>)
  {
    seq(|produtos|, i requires 0 <= i < |produtos| =>
      if produtos[i].codigo == salvo.codigo then salvo else produtos[i])
  }

  /** `prev.filter(p => p.codigo !== codigo)` */
  function Excluir(produtos: seq<Produto>, codigo: string): (r: seq<Produto>)
  {
    if produtos == [] then []
    else (if produtos[0].codigo != codigo then [produtos[0]] else []) + Excluir(produtos[1..], codigo)
  }

  /** An entry remains exactly when it was listed with another code. */
  lemma {:induction false} ExcluirMembership(produtos: seq<Produto>, codigo: string)
    ensures forall p :: p in Excluir(produtos, codigo) <==> p in produtos && p.codigo != codigo
    ensures |Excluir(produtos, codigo)| <= |produtos|
  {
    if produtos != [] {
      ExcluirMembership(produtos[1..], codigo);
      assert produtos == [produtos[0]] + produtos[1..];
    }
  }

  // ---------------------------------------------------------------------------
  // Properties of the list updates
  // ---------------------------------------------------------------------------

  /** An accepted edit replaces the entry with the same code and nothing else. */
  lemma EditarReplacesEntry(produtos: seq<Produto>, salvo: Produto, j: nat)
    requires CodigosUnicos(produtos) && j < |produtos| && produtos[j].codigo == salvo.codigo
    ensures Editar(produtos, salvo) == produtos[j := salvo]
  {
  }

  /** An edit whose code is not in the list leaves the list as it is. */
  lemma EditarAbsent(produtos: seq<Produto>, salvo: Produto)
    requires !CodigoExiste(produtos, salvo.codigo)
    ensures Editar(produtos, salvo) == produtos
  {
  }

  /** A new product that passed the checks keeps codes and EANs unique when appended. */
  lemma AddKeepsUnique(produtos: seq<Produto>, novo: Produto)
    requires Unicos(produtos) && Validar(novo, produtos, false).Vazio()
    ensures Unicos(produtos + [Normalizar(novo)])
  {
    var r := produtos + [Normalizar(novo)];
    forall i, j | 0 <= i < j < |r| ensures r[i].codigo != r[j].codigo && r[i].ean != r[j].ean {
      if j == |produtos| {
        assert r[i] == produtos[i];
      }
    }
  }

  /** Appending a new product that passed the checks keeps codes unique, whatever EANs
      the list repeats. */
  lemma AddKeepsCodigosUnicos(produtos: seq<Produto>, novo: Produto)
    requires CodigosUnicos(produtos) && Validar(novo, produtos, false).Vazio()
    ensures CodigosUnicos(produtos + [Normalizar(novo)])
  {
    var r := produtos + [Normalizar(novo)];
    forall i, j | 0 <= i < j < |r| ensures r[i].codigo != r[j].codigo {
      if j == |produtos| {
        assert r[i] == produtos[i];
      }
    }
  }

  /** An edit keeps every entry's code, so it keeps codes unique. */
  lemma EditarKeepsCodigosUnicos(produtos: seq<Produto>, salvo: Produto)
    requires CodigosUnicos(produtos)
    ensures CodigosUnicos(Editar(produtos, salvo))
  {
    var r := Editar(produtos, salvo);
    assert forall i :: 0 <= i < |r| ==> r[i].codigo == produtos[i].codigo;
  }

  /** An edit skips both duplicate checks, so an edit can give a product the EAN that
      another product already has: here "B" takes the EAN of "A". */
  lemma EditCanDuplicateEan()
    ensures exists produtos: seq<Produto>, novo: Produto ::
      && Unicos(produtos)
      && CodigoExiste(produtos, novo.codigo)
      && Validar(novo, produtos, true).Vazio()
      && !Unicos(Editar(produtos, Normalizar(novo)))
  {
    var ean1 := "7890000000001";
    var ean2 := "7890000000002";
    var a := Produto("Arroz", "A", ean1, 500, 300, "Alimentos", 10, Some(0));
    var b := Produto("Feijao", "B", ean2, 700, 400, "Alimentos", 10, Some(0));
    var produtos := [a, b];
    var novo := b.(ean := ean1);
    assert Ean13(ean1);
    assert produtos[1].codigo == novo.codigo;
    var r := Editar(produtos, Normalizar(novo));
    assert r[0].ean == r[1].ean;
  }

  /** Deletion distributes over concatenation. This mirrors the cart's removal
      (`Caixa.RemoverDoCarrinho`), a separate `filter` over cart lines. */
  lemma {:induction false} ExcluirConcat(a: seq<Produto>, b: seq<Produto>, c: string)
    ensures Excluir(a + b, c) == Excluir(a, c) + Excluir(b, c)
    decreases |a|
  {
    if a == [] {
      assert a + b == b;
    } else {
      assert (a + b)[1..] == a[1..] + b;
      ExcluirConcat(a[1..], b, c);
    }
  }

  /** Deleting the code of an entry that no other entry shares leaves the entries
      around it. */
  lemma ExcluirMeio(antes: seq<Produto>, p: Produto, depois: seq<Produto>, c: string)
    requires p.codigo == c
    requires forall i :: 0 <= i < |antes| ==> antes[i].codigo != c
    requires forall i :: 0 <= i < |depois| ==> depois[i].codigo != c
    ensures Excluir(antes + [p] + depois, c) == antes + depois
  {
    assert Excluir([p], c) == [] by {
      assert [p][1..] == [];
    }
    calc {
      Excluir(antes + [p] + depois, c);
      { ExcluirConcat(antes + [p], depois, c); }
      Excluir(antes + [p], c) + Excluir(depois, c);
      { ExcluirConcat(antes, [p], c); }
      Excluir(antes, c) + Excluir([p], c) + Excluir(depois, c);
      { ExcluirAbsent(antes, c); ExcluirAbsent(depois, c); }
      antes + [] + depois;
      { assert antes + [] == antes; }
      antes + depois;
    }
  }

  /** With unique codes, deleting code `c` removes exactly its entry, keeping the rest in
      order. */
  lemma ExcluirDeletesEntry(produtos: seq<Produto>, c: string, j: nat)
    requires CodigosUnicos(produtos) && j < |produtos| && produtos[j].codigo == c
    ensures Excluir(produtos, c) == produtos[..j] + produtos[j + 1..]
  {
    var antes, depois := produtos[..j], produtos[j + 1..];
    forall i | 0 <= i < |antes| ensures antes[i].codigo != c {
      assert antes[i] == produtos[i];
    }
    forall i | 0 <= i < |depois| ensures depois[i].codigo != c {
      assert depois[i] == produtos[j + 1 + i];
    }
    assert produtos == antes + [produtos[j]] + depois;
    ExcluirMeio(antes, produtos[j], depois, c);
  }

  /** Deletion keeps codes unique. */
  lemma {:induction false} ExcluirKeepsCodigosUnicos(produtos: seq<Produto>, c: string)
    requires CodigosUnicos(produtos)
    ensures CodigosUnicos(Excluir(produtos, c))
    decreases |produtos|
  {
    if produtos != [] {
      var resto := Excluir(produtos[1..], c);
      ExcluirKeepsCodigosUnicos(produtos[1..], c);
      ExcluirMembership(produtos[1..], c);
      if produtos[0].codigo != c {
        var r := [produtos[0]] + resto;
        forall i, j | 0 <= i < j < |r| ensures r[i].codigo != r[j].codigo {
          if i == 0 {
            assert r[j] in produtos[1..];
            var k :| 0 <= k < |produtos[1..]| && produtos[1..][k] == r[j];
            assert produtos[1 + k] == r[j];
          } else {
            assert r[i] == resto[i - 1] && r[j] == resto[j - 1];
          }
        }
      }
    }
  }

  lemma {:induction false} ExcluirAbsent(produtos: seq<Produto>, c: string)
    requires forall i :: 0 <= i < |produtos| ==> produtos[i].codigo != c
    ensures Excluir(produtos, c) == produtos
    decreases |produtos|
  {
    if produtos != [] {
      ExcluirAbsent(produtos[1..], c);
      assert produtos == [produtos[0]] + produtos[1..];
    }
  }

  // ---------------------------------------------------------------------------
  // handleSubmit and handleDeletar
  // ---------------------------------------------------------------------------

  /** `handleSubmit`: collect the errors field by field; with none, write the normalised
      product to the store and update the page's list (replace when editing, append when
      new). */
  method HandleSubmit(db: Db.Database, produtos: seq<Produto>, novo: Produto, editando: bool)
    returns (erros: Erros, lista: seq<Produto>)
    requires db.Ready()
    modifies db
    ensures db.Ready()
    ensures erros == Validar(novo, produtos, editando)
    ensures !erros.Vazio() ==> lista == produtos && unchanged(db)
    ensures erros.Vazio() ==> db.produtos == old(db.produtos)[novo.codigo := Normalizar(novo)]
    ensures db.vendas == old(db.vendas) && db.proximoId == old(db.proximoId)
    ensures erros.Vazio() && editando ==> lista == Editar(produtos, Normalizar(novo))
    ensures erros.Vazio() && !editando ==> lista == produtos + [Normalizar(novo)]
    ensures CodigosUnicos(produtos) ==> CodigosUnicos(lista)
  {
    erros := Erros(None, None);
    if !Ean13(novo.ean) {
      erros := erros.(ean := Some(ERRO_EAN_FORMATO));
    }
    if !editando && CodigoExiste(produtos, novo.codigo) {
      erros := erros.(codigo := Some(ERRO_CODIGO_EXISTE));
    }
    if !editando && EanExiste(produtos, novo.ean) {
      erros := erros.(ean := Some(ERRO_EAN_EXISTE));
    }
    if !erros.Vazio() {
      return erros, produtos;
    }
    var salvo := Normalizar(novo);
    if editando {
      db.UpdateProduto(salvo);
      lista := Editar(produtos, salvo);
      if CodigosUnicos(produtos) {
        EditarKeepsCodigosUnicos(produtos, salvo);
      }
    } else {
      db.AddProduto(salvo);
      lista := produtos + [salvo];
      if CodigosUnicos(produtos) {
        AddKeepsCodigosUnicos(produtos, novo);
      }
    }
  }

  /** `handleDeletar`: when the user confirms, delete the key from the store and drop the
      entries with that code from the page's list. */
  method HandleDeletar(db: Db.Database, produtos: seq<Produto>, codigo: string, confirmado: bool)
    returns (lista: seq<Produto>)
    requires db.Ready()
    modifies db`produtos
    ensures db.Ready()
    ensures !confirmado ==> lista == produtos && db.produtos == old(db.produtos)
    ensures confirmado ==> lista == Excluir(produtos, codigo) && db.produtos == old(db.produtos) - {codigo}
    ensures CodigosUnicos(produtos) ==> CodigosUnicos(lista)
  {
    if !confirmado {
      return produtos;
    }
    db.DeleteProduto(codigo);
    lista := Excluir(produtos, codigo);
    if CodigosUnicos(produtos) {
      ExcluirKeepsCodigosUnicos(produtos, codigo);
    }
  }

  // ---------------------------------------------------------------------------
  // importarDeExcel
  // ---------------------------------------------------------------------------

  /** A spreadsheet row as `sheet_to_json` gives it: column header to cell text. */
  type Linha = map<string, string>

  /** A cell; a missing column reads as the empty string, which is falsy like `undefined`. */
  function Celula(r: Linha, coluna: string): (s: string)
  {
    if coluna in r then r[coluna] else ""
  }

  /** `String(r[a] || r[b] || padrao)` */
  function Ou(r: Linha, a: string, b: string, padrao: string): (s: string)
    ensures Celula(r, a) != "" ==> s == r[a]
    ensures Celula(r, a) == "" && Celula(r, b) != "" ==> s == r[b]
    ensures Celula(r, a) == "" && Celula(r, b) == "" ==> s == padrao
  {
    if Celula(r, a) != "" then Celula(r, a)
    else if Celula(r, b) != "" then Celula(r, b)
    else padrao
  }

  /** The row mapping of `importarDeExcel`. `centavos` and `inteiro` stand for the
      `parseFloat` and `parseInt` the app applies to the text where it is used. The row
      gives no `alertaEstoque`. */
  function LinhaParaProduto(r: Linha, centavos: string -> int, inteiro: string -> int): (p: Produto)
  {
    Produto(
      nome := Ou(r, "Nome", "nome", ""),
      codigo := Ou(r, "Código", "codigo", ""),
      ean := Ou(r, "EAN13", "ean", ""),
      precoVenda := centavos(Ou(r, "Preço Venda", "precoVenda", "0")),
      precoCusto := centavos(Ou(r, "Preço Custo", "precoCusto", "0")),
      categoria := Ou(r, "Categoria", "categoria", ""),
      estoque := inteiro(Ou(r, "Estoque", "estoque", "0")),
      alertaEstoque := None)
  }

  /** Columns the row lacks take their defaults: "" for the text fields, "0" for prices
      and stock; the sheet's own header takes precedence over the field name. */
  lemma ImportDefaults(r: Linha, centavos: string -> int, inteiro: string -> int)
    ensures var p := LinhaParaProduto(r, centavos, inteiro);
      && (Celula(r, "Código") == "" && Celula(r, "codigo") == "" ==> p.codigo == "")
      && (Celula(r, "Código") != "" ==> p.codigo == r["Código"])
      && (Celula(r, "Nome") == "" && Celula(r, "nome") == "" ==> p.nome == "")
      && (Celula(r, "EAN13") == "" && Celula(r, "ean") == "" ==> p.ean == "")
      && (Celula(r, "Categoria") == "" && Celula(r, "categoria") == "" ==> p.categoria == "")
      && (Celula(r, "Preço Venda") == "" && Celula(r, "precoVenda") == "" ==> p.precoVenda == centavos("0"))
      && (Celula(r, "Preço Custo") == "" && Celula(r, "precoCusto") == "" ==> p.precoCusto == centavos("0"))
      && (Celula(r, "Estoque") == "" && Celula(r, "estoque") == "" ==> p.estoque == inteiro("0"))
      && p.alertaEstoque.None?
  {
  }

  /** The store after one put per product, in order. */
  function PutAll(m: map<string, Produto>, ps: seq<Produto>): (r: map<string, Produto>)
    decreases |ps|
  {
    if ps == [] then m else PutAll(m[ps[0].codigo := ps[0]], ps[1..])
  }

  /** Importing is last-write-wins per code: the last row with a code decides its record,
      and codes on no row keep theirs. */
  lemma {:induction false} PutAllLastWins(m: map<string, Produto>, ps: seq<Produto>, i: nat)
    requires i < |ps| && forall j :: i < j < |ps| ==> ps[j].codigo != ps[i].codigo
    ensures ps[i].codigo in PutAll(m, ps) && PutAll(m, ps)[ps[i].codigo] == ps[i]
    decreases |ps|
  {
    var m' := m[ps[0].codigo := ps[0]];
    if i == 0 {
      PutAllSkips(m', ps[1..], ps[0].codigo);
    } else {
      PutAllLastWins(m', ps[1..], i - 1);
    }
  }

  lemma {:induction false} PutAllSkips(m: map<string, Produto>, ps: seq<Produto>, k: string)
    requires forall j :: 0 <= j < |ps| ==> ps[j].codigo != k
    ensures k in PutAll(m, ps) <==> k in m
    ensures k in m ==> PutAll(m, ps)[k] == m[k]
    decreases |ps|
  {
    if ps != [] {
      PutAllSkips(m[ps[0].codigo := ps[0]], ps[1..], k);
    }
  }

  /** `importarDeExcel` once the file is read: map the rows, put each product, then
      reload the list from the store. */
  method ImportarDeExcel(db: Db.Database, linhas: seq<Linha>, centavos: string -> int, inteiro: string -> int)
    returns (lista: seq<Produto>)
    requires db.Ready()
    modifies db`produtos
    ensures db.Ready()
    ensures db.produtos == PutAll(old(db.produtos),
      seq(|linhas|, i requires 0 <= i < |linhas| => LinhaParaProduto(linhas[i], centavos, inteiro)))
    ensures |lista| == |db.produtos|
    ensures forall p :: p in lista <==> p in db.produtos.Values
    ensures forall i, j :: 0 <= i < j < |lista| ==> StringOrder.Less(lista[i].codigo, lista[j].codigo)
    ensures CodigosUnicos(lista)
  {
    var novos := seq(|linhas|, i requires 0 <= i < |linhas| => LinhaParaProduto(linhas[i], centavos, inteiro));
    var k := 0;
    while k < |novos|
      invariant 0 <= k <= |novos|
      invariant db.Ready()
      invariant PutAll(db.produtos, novos[k..]) == PutAll(old(db.produtos), novos)
    {
      assert novos[k..][1..] == novos[k + 1..];
      db.AddProduto(novos[k]);
      k := k + 1;
    }
    lista := db.GetProdutos();
    forall i, j | 0 <= i < j < |lista| ensures lista[i].codigo != lista[j].codigo {
      StringOrder.LessIrreflexive(lista[i].codigo);
    }
  }
}
