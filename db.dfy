/** The IndexedDB database "ProdutoDB" (src/db.ts): the object store "produtos" keyed by
    `codigo`, the object store "vendas" with an auto-incremented key and an index on
    `data`, the schema migration run when the database is opened, and the store functions
    the pages call. Each object store is a map; the key generator of "vendas" is a field. */
module Db {
  import opened Tipos
  import opened StringOrder

  /** The schema version the app opens the database with. */
  const DB_VERSION: nat := 3

  // ---------------------------------------------------------------------------
  // Schema migration
  // ---------------------------------------------------------------------------

  /** What the database holds: which object stores exist, their records, and the next
      key the "vendas" key generator hands out. */
  datatype Estado = Estado(
    temProdutos: bool,
    temVendas: bool,
    produtos: map<string, Produto>,
    vendas: map<nat, Venda>,
    proximoId: nat)

  /** The invariants every store state keeps: a missing object store holds nothing, every
      product sits under its own `codigo`, and every sale id was generated before. */
  ghost predicate Consistente(e: Estado)
  {
    && e.proximoId >= 1
    && (!e.temProdutos ==> e.produtos == map[])
    && (!e.temVendas ==> e.vendas == map[] && e.proximoId == 1)
    && (forall k :: k in e.produtos ==> e.produtos[k].codigo == k)
    && (forall id :: id in e.vendas ==> 1 <= id < e.proximoId)
  }

  /** The object stores a database at schema version `v` has. */
  predicate EsquemaDa(e: Estado, v: nat)
  {
    e.temProdutos == (v >= 1) && e.temVendas == (v >= 2)
  }

  /** One record after the version 3 step: the stock alert defaults to 0 when absent. */
  function ComAlerta(p: Produto): (r: Produto)
  {
    if p.alertaEstoque.None? then p.(alertaEstoque := Some(0)) else p
  }

  /** The version 3 step over the whole "produtos" store. */
  function Backfill(m: map<string, Produto>): (r: map<string, Produto>)
    ensures r.Keys == m.Keys
    ensures forall k :: k in m && m[k].alertaEstoque.None? ==> r[k] == m[k].(alertaEstoque := Some(0))
    ensures forall k :: k in m && m[k].alertaEstoque.Some? ==> r[k] == m[k]
  {
    map k | k in m :: ComAlerta(m[k])
  }

  /** The upgrade step that takes the schema to version `v`. */
  function Passo(e: Estado, v: nat): (r: Estado)
  {
    if v == 1 then e.(temProdutos := true, produtos := map[])
    else if v == 2 then e.(temVendas := true, vendas := map[], proximoId := 1)
    else if v == 3 then e.(produtos := Backfill(e.produtos))
    else e
  }

  /** Every step whose version lies in (de, para], in ascending order. */
  function Migrar(e: Estado, de: nat, para: nat): (r: Estado)
    decreases para - de
  {
    if de >= para then e else Migrar(Passo(e, de + 1), de + 1, para)
  }

  /** The intended `upgrade` from a database at `oldVersion`: each step guarded by
      `oldVersion < step`, with the v3 step run inside the version change transaction.
      `UpgradedComoEscrito` below is what the code as written does. */
  function Upgraded(e: Estado, oldVersion: nat): (r: Estado)
    // below version 3, every product comes out with a stock alert
    ensures oldVersion < DB_VERSION ==> forall k :: k in r.produtos ==> r.produtos[k].alertaEstoque.Some?
  {
    var e1 := if oldVersion < 1 then Passo(e, 1) else e;
    var e2 := if oldVersion < 2 then Passo(e1, 2) else e1;
    if oldVersion < 3 then Passo(e2, 3) else e2
  }

  /** What `upgrade` does as src/db.ts:38-55 is written. The v3 branch first calls
      `database.transaction`, which IndexedDB refuses while the version change
      transaction is running. The exception rejects the `async` callback, which `openDB`
      does not wait for, so the version change commits with the v1 and v2 stores created
      and no record touched. */
  function UpgradedComoEscrito(e: Estado, oldVersion: nat): (r: Estado)
    // every step but the backfill runs as intended
    ensures oldVersion < 3 ==> r.(produtos := Upgraded(e, oldVersion).produtos) == Upgraded(e, oldVersion)
    // records already stored are left exactly as they were
    ensures 1 <= oldVersion ==> r.produtos == e.produtos
  {
    var e1 := if oldVersion < 1 then Passo(e, 1) else e;
    if oldVersion < 2 then Passo(e1, 2) else e1
  }

  /** A product written at schema version 1 or 2 without `alertaEstoque` still lacks it
      after the upgrade as written, while the intended v3 step gives it 0. */
  lemma AlertaFicaAusente(e: Estado, oldVersion: nat, k: string)
    requires 1 <= oldVersion < DB_VERSION
    requires k in e.produtos && e.produtos[k].alertaEstoque.None?
    ensures k in UpgradedComoEscrito(e, oldVersion).produtos
    ensures UpgradedComoEscrito(e, oldVersion).produtos[k].alertaEstoque.None?
    ensures k in Upgraded(e, oldVersion).produtos
    ensures Upgraded(e, oldVersion).produtos[k].alertaEstoque == Some(0)
  {
  }

  /** A concrete version 2 database on which the upgrade as written and the intended
      migration part ways: one product stored without a stock alert. */
  lemma ComoEscritoDifere()
    ensures exists e: Estado :: Consistente(e) && EsquemaDa(e, 2) && UpgradedComoEscrito(e, 2) != Migrar(e, 2, DB_VERSION)
  {
    var p := Produto("Arroz", "A", "7890000000001", 500, 300, "Alimentos", 10, None);
    var e := Estado(true, true, map["A" := p], map[], 1);
    assert Migrar(e, 2, DB_VERSION) == Passo(e, 3);
    assert Passo(e, 3).produtos["A"].alertaEstoque == Some(0);
    assert Consistente(e) && EsquemaDa(e, 2);
  }

  lemma UpgradeIsMigration(e: Estado, oldVersion: nat)
    ensures Upgraded(e, oldVersion) == Migrar(e, oldVersion, DB_VERSION)
  {
    if oldVersion < 3 {
      assert Migrar(e, 2, 3) == Passo(e, 3);
      if oldVersion < 2 {
        assert Migrar(e, 1, 3) == Passo(Passo(e, 2), 3);
      }
    }
  }

  /** Upgrading in stages gives what one upgrade over the whole range gives. */
  lemma {:induction false} MigrarComposes(e: Estado, a: nat, b: nat, c: nat)
    requires a <= b <= c
    ensures Migrar(Migrar(e, a, b), b, c) == Migrar(e, a, c)
    decreases b - a
  {
    if a < b {
      MigrarComposes(Passo(e, a + 1), a + 1, b, c);
    }
  }

  /** From a fresh database, the three steps run in the order v1, v2, v3; a database
      already at version 3 or later is left as it is. */
  lemma UpgradeFromZero(e: Estado)
    ensures Upgraded(e, 0) == Passo(Passo(Passo(e, 1), 2), 3)
    ensures Upgraded(e, 0) == Migrar(Migrar(Migrar(e, 0, 1), 1, 2), 2, 3)
  {
  }

  lemma UpgradeCurrentIsIdentity(e: Estado, oldVersion: nat)
    requires oldVersion >= DB_VERSION
    ensures Upgraded(e, oldVersion) == e
  {
  }

  /** The version 3 step run twice gives what it gives once. */
  lemma BackfillIdempotent(m: map<string, Produto>)
    ensures Backfill(Backfill(m)) == Backfill(m)
  {
  }

  /** After the version 3 step every product has its stock alert and nothing but that
      field changed. */
  lemma BackfillComplete(m: map<string, Produto>, k: string)
    requires k in m
    ensures Backfill(m)[k].alertaEstoque.Some?
    ensures Backfill(m)[k] == m[k].(alertaEstoque := Backfill(m)[k].alertaEstoque)
  {
  }

  lemma {:induction false} MigrarKeepsInvariants(e: Estado, de: nat, para: nat)
    requires Consistente(e) && EsquemaDa(e, de) && de <= para
    ensures Consistente(Migrar(e, de, para)) && EsquemaDa(Migrar(e, de, para), para)
    decreases para - de
  {
    if de < para {
      var e' := Passo(e, de + 1);
      assert Consistente(e') && EsquemaDa(e', de + 1);
      MigrarKeepsInvariants(e', de + 1, para);
    }
  }

  // ---------------------------------------------------------------------------
  // The sales ledger and the "data" index
  // ---------------------------------------------------------------------------

  /** Position of two sales in the "data" index: by date, then by primary key. */
  predicate IndexLess(m: map<nat, Venda>, x: nat, y: nat)
  {
    x in m && y in m && (Less(m[x].data, m[y].data) || (m[x].data == m[y].data && x < y))
  }

  predicate IndexLessEq(m: map<nat, Venda>, x: nat, y: nat)
  {
    x == y || IndexLess(m, x, y)
  }

  lemma IndexLessIrreflexive(m: map<nat, Venda>, x: nat)
    ensures !IndexLess(m, x, x)
  {
    if x in m {
      LessIrreflexive(m[x].data);
    }
  }

  lemma IndexLessTotal(m: map<nat, Venda>, x: nat, y: nat)
    requires x in m && y in m
    ensures x == y || IndexLess(m, x, y) || IndexLess(m, y, x)
  {
    LessTotal(m[x].data, m[y].data);
  }

  lemma IndexLessEqTransitive(m: map<nat, Venda>, x: nat, y: nat, z: nat)
    requires IndexLessEq(m, x, y) && IndexLessEq(m, y, z)
    ensures IndexLessEq(m, x, z)
  {
    if x != y && y != z && Less(m[x].data, m[y].data) && Less(m[y].data, m[z].data) {
      LessTransitive(m[x].data, m[y].data, m[z].data);
    }
  }

  /** A cursor over the index always has a next record to move to. */
  lemma {:induction false} IndexMinimumExists(m: map<nat, Venda>, s: set<nat>)
    requires s != {} && s <= m.Keys
    ensures exists x :: x in s && forall y :: y in s ==> IndexLessEq(m, x, y)
    decreases |s|
  {
    var x :| x in s;
    var rest := s - {x};
    if rest == {} {
      assert s == {x};
    } else {
      IndexMinimumExists(m, rest);
      var w :| w in rest && forall y :: y in rest ==> IndexLessEq(m, w, y);
      IndexLessTotal(m, w, x);
      if IndexLess(m, x, w) {
        forall y | y in s ensures IndexLessEq(m, x, y) {
          if y != x {
            IndexLessEqTransitive(m, x, w, y);
          }
        }
      } else {
        assert forall y :: y in s ==> IndexLessEq(m, w, y);
      }
    }
  }

  /** The inclusive key range `IDBKeyRange.bound(inicio, fim)`. */
  predicate NoIntervalo(data: string, inicio: string, fim: string)
  {
    LessEq(inicio, data) && LessEq(data, fim)
  }

  /** The ids of the sales whose date lies in [inicio, fim]. */
  function NoPeriodo(m: map<nat, Venda>, inicio: string, fim: string): (r: set<nat>)
  {
    set id | id in m && NoIntervalo(m[id].data, inicio, fim)
  }

  /** `r` lists the records of `m` under the keys `chaves`, each exactly once, with `ids`
      the key each one came from. */
  ghost predicate Lista(m: map<nat, Venda>, chaves: set<nat>, ids: seq<nat>, r: seq<Venda>)
  {
    && |ids| == |r|
    && (forall i :: 0 <= i < |ids| ==> ids[i] in chaves && ids[i] in m && r[i] == m[ids[i]])
    && (forall k :: k in chaves ==> k in ids)
    && (forall i, j :: 0 <= i < j < |ids| ==> ids[i] != ids[j])
  }

  /** How many keys of `chaves` hold the value `v`. */
  ghost function Ocorrencias(m: map<nat, Venda>, chaves: set<nat>, v: Venda): (n: nat)
  {
    |ChavesCom(m, chaves, v)|
  }

  ghost function ChavesCom(m: map<nat, Venda>, chaves: set<nat>, v: Venda): (r: set<nat>)
  {
    set k | k in chaves && k in m && m[k] == v
  }

  /** Dropping the last entry of a listing lists the other keys. */
  lemma ListaDropLast(m: map<nat, Venda>, chaves: set<nat>, ids: seq<nat>, r: seq<Venda>)
    requires Lista(m, chaves, ids, r) && |ids| > 0
    ensures ids[|ids| - 1] in chaves && ids[|ids| - 1] in m
    ensures Lista(m, chaves - {ids[|ids| - 1]}, ids[..|ids| - 1], r[..|r| - 1])
  {
    var n := |ids| - 1;
    forall k | k in chaves - {ids[n]} ensures k in ids[..n] {
      var i :| 0 <= i < |ids| && ids[i] == k;
      assert i != n;
    }
  }

  /** A listing of every key holds exactly the stored values. */
  lemma ListaValues(m: map<nat, Venda>, ids: seq<nat>, r: seq<Venda>)
    requires Lista(m, m.Keys, ids, r)
    ensures forall v :: v in r <==> v in m.Values
  {
    forall v | v in m.Values ensures v in r {
      var k :| k in m && m[k] == v;
      var i :| 0 <= i < |ids| && ids[i] == k;
      assert r[i] == v;
    }
  }

  lemma OcorrenciasAdd(m: map<nat, Venda>, chaves: set<nat>, x: nat, v: Venda)
    requires x in chaves && x in m
    ensures Ocorrencias(m, chaves, v) == Ocorrencias(m, chaves - {x}, v) + (if m[x] == v then 1 else 0)
  {
    var antes := ChavesCom(m, chaves - {x}, v);
    var todos := ChavesCom(m, chaves, v);
    assert x !in antes;
    if m[x] == v {
      assert todos == antes + {x};
    } else {
      assert todos == antes;
    }
  }

  /** A listing holds each value as often as the listed keys hold it. */
  lemma {:induction false} ListaMultiset(m: map<nat, Venda>, chaves: set<nat>, ids: seq<nat>, r: seq<Venda>, v: Venda)
    requires Lista(m, chaves, ids, r)
    ensures multiset(r)[v] == Ocorrencias(m, chaves, v)
    decreases |ids|
  {
    if |ids| == 0 {
      assert ChavesCom(m, chaves, v) == {};
    } else {
      var n := |ids| - 1;
      ListaDropLast(m, chaves, ids, r);
      ListaMultiset(m, chaves - {ids[n]}, ids[..n], r[..n], v);
      assert r == r[..n] + [r[n]];
      assert multiset(r)[v] == multiset(r[..n])[v] + (if r[n] == v then 1 else 0);
      OcorrenciasAdd(m, chaves, ids[n], v);
    }
  }

  /** `Array.prototype.filter` of a sales array by the date range. */
  function FiltrarPeriodo(s: seq<Venda>, inicio: string, fim: string): (r: seq<Venda>)
    ensures forall v :: v in r ==> NoIntervalo(v.data, inicio, fim)
  {
    if s == [] then []
    else (if NoIntervalo(s[0].data, inicio, fim) then [s[0]] else []) + FiltrarPeriodo(s[1..], inicio, fim)
  }

  lemma {:induction false} FiltrarPeriodoMultiset(s: seq<Venda>, inicio: string, fim: string, v: Venda)
    ensures multiset(FiltrarPeriodo(s, inicio, fim))[v] == if NoIntervalo(v.data, inicio, fim) then multiset(s)[v] else 0
  {
    if s != [] {
      FiltrarPeriodoMultiset(s[1..], inicio, fim, v);
      assert s == [s[0]] + s[1..];
    }
  }

  /** The range scan over the index returns the same sales, as a multiset, as filtering the
      full ledger by the same inclusive bounds. */
  lemma PeriodoIsFilteredLedger(
    m: map<nat, Venda>, inicio: string, fim: string,
    idsTodas: seq<nat>, todas: seq<Venda>, idsPeriodo: seq<nat>, periodo: seq<Venda>)
    requires Lista(m, m.Keys, idsTodas, todas)
    requires Lista(m, NoPeriodo(m, inicio, fim), idsPeriodo, periodo)
    ensures multiset(periodo) == multiset(FiltrarPeriodo(todas, inicio, fim))
  {
    forall v | true
      ensures multiset(periodo)[v] == multiset(FiltrarPeriodo(todas, inicio, fim))[v]
    {
      ListaMultiset(m, NoPeriodo(m, inicio, fim), idsPeriodo, periodo, v);
      ListaMultiset(m, m.Keys, idsTodas, todas, v);
      FiltrarPeriodoMultiset(todas, inicio, fim, v);
      var noPeriodo := ChavesCom(m, NoPeriodo(m, inicio, fim), v);
      var todasV := ChavesCom(m, m.Keys, v);
      if NoIntervalo(v.data, inicio, fim) {
        assert noPeriodo == todasV;
      } else {
        assert noPeriodo == {};
      }
    }
  }

  /** Progress of `getAll` on "produtos": `r` lists, in ascending key order, the records
      of every key not in `restantes`, and each of those keys is below every remaining one. */
  ghost predicate Listados(m: map<string, Produto>, restantes: set<string>, r: seq<Produto>)
  {
    && (forall k :: k in m ==> m[k].codigo == k)
    && restantes <= m.Keys
    && |r| + |restantes| == |m.Keys|
    && (forall i :: 0 <= i < |r| ==> r[i].codigo in m && m[r[i].codigo] == r[i] && r[i].codigo !in restantes)
    && (forall k :: k in m && k !in restantes ==> m[k] in r)
    && (forall i, j :: 0 <= i < j < |r| ==> Less(r[i].codigo, r[j].codigo))
    && (forall i, k :: 0 <= i < |r| && k in restantes ==> Less(r[i].codigo, k))
  }

  /** Taking the least remaining key keeps the listing in order. */
  lemma ListadosStep(m: map<string, Produto>, restantes: set<string>, r: seq<Produto>, chave: string)
    requires Listados(m, restantes, r)
    requires chave in restantes && forall k :: k in restantes ==> LessEq(chave, k)
    ensures Listados(m, restantes - {chave}, r + [m[chave]])
  {
    assert forall k :: k in restantes - {chave} ==> Less(chave, k);
    var r' := r + [m[chave]];
    assert forall i :: 0 <= i < |r| ==> r'[i] == r[i];
  }

  /** Progress of the cursor: `lista` holds, in index order, the sales under `ids`, which
      are the keys of `alvo` already visited, each below every key still to visit. */
  ghost predicate Varridos(m: map<nat, Venda>, alvo: set<nat>, restantes: set<nat>, ids: seq<nat>, lista: seq<Venda>)
  {
    && restantes <= alvo && alvo <= m.Keys
    && |ids| == |lista|
    && (forall i :: 0 <= i < |ids| ==> ids[i] in alvo && ids[i] !in restantes && lista[i] == m[ids[i]])
    && (forall k :: k in alvo && k !in restantes ==> k in ids)
    && (forall i, j :: 0 <= i < j < |ids| ==> IndexLess(m, ids[i], ids[j]))
    && (forall i, k :: 0 <= i < |ids| && k in restantes ==> IndexLess(m, ids[i], k))
  }

  /** `continue` moves to the least remaining index position and keeps the order. */
  lemma VarridosStep(m: map<nat, Venda>, alvo: set<nat>, restantes: set<nat>, ids: seq<nat>, lista: seq<Venda>, id: nat)
    requires Varridos(m, alvo, restantes, ids, lista)
    requires id in restantes && forall k :: k in restantes ==> IndexLessEq(m, id, k)
    ensures Varridos(m, alvo, restantes - {id}, ids + [id], lista + [m[id]])
  {
    assert forall k :: k in restantes - {id} ==> IndexLess(m, id, k);
    var ids' := ids + [id];
    assert forall i :: 0 <= i < |ids| ==> ids'[i] == ids[i];
  }

  // ---------------------------------------------------------------------------
  // The database object
  // ---------------------------------------------------------------------------

  class Database {
    var version: nat
    var temProdutos: bool
    var temVendas: bool
    var produtos: map<string, Produto>
    var vendas: map<nat, Venda>
    var proximoId: nat

    function Snapshot(): (e: Estado)
      reads this
    {
      Estado(temProdutos, temVendas, produtos, vendas, proximoId)
    }

    ghost predicate Valid()
      reads this
    {
      Consistente(Snapshot())
    }

    /** Opened and upgraded: both object stores exist at the current version. */
    ghost predicate Ready()
      reads this
    {
      Valid() && version == DB_VERSION && temProdutos && temVendas
    }

    /** The database as the browser keeps it between sessions: `v` is the version on
        disk, 0 when it does not exist yet. */
    constructor (v: nat, e: Estado)
      requires Consistente(e) && EsquemaDa(e, v)
      ensures Valid() && version == v && Snapshot() == e
    {
      version := v;
      temProdutos, temVendas := e.temProdutos, e.temVendas;
      produtos, vendas, proximoId := e.produtos, e.vendas, e.proximoId;
    }

    /** `openDB(DB_NAME, DB_VERSION, { upgrade })`: a database on disk at a later version
        than 3 is refused; an older one is upgraded; the version becomes 3. */
    method Abrir() returns (ok: bool)
      requires Valid() && EsquemaDa(Snapshot(), version)
      modifies this
      ensures ok <==> old(version) <= DB_VERSION
      ensures ok ==> Ready() && Snapshot() == Migrar(old(Snapshot()), old(version), DB_VERSION)
      ensures !ok ==> unchanged(this)
    {
      if version > DB_VERSION {
        return false;
      }
      MigrarKeepsInvariants(Snapshot(), version, DB_VERSION);
      if version < DB_VERSION {
        Upgrade(version);
      }
      version := DB_VERSION;
      ok := true;
    }

    /** The intended `upgrade` callback: create "produtos" (v1), create "vendas" with its
        index (v2), then put back every product that lacks `alertaEstoque` with it set to 0
        (v3), within the version change transaction. */
    method Upgrade(oldVersion: nat)
      requires Valid() && EsquemaDa(Snapshot(), oldVersion)
      modifies this
      ensures Valid() && version == old(version)
      ensures Snapshot() == Upgraded(old(Snapshot()), oldVersion)
    {
      if oldVersion < 1 {
        temProdutos, produtos := true, map[];
      }
      if oldVersion < 2 {
        temVendas, vendas, proximoId := true, map[], 1;
      }
      if oldVersion < 3 {
        PreencherAlertas();
      }
    }

    /** The version 3 step: go over the keys of "produtos" and put back, under its own
        `codigo`, every record that lacks `alertaEstoque`, with the field set to 0. */
    method PreencherAlertas()
      requires Valid()
      modifies this`produtos
      ensures Valid()
      ensures produtos == Backfill(old(produtos))
    {
      var chaves := produtos.Keys;
      while chaves != {}
        invariant chaves <= old(produtos).Keys && produtos.Keys == old(produtos).Keys
        invariant forall k :: k in chaves ==> produtos[k] == old(produtos)[k]
        invariant forall k :: k in old(produtos) && k !in chaves ==> produtos[k] == ComAlerta(old(produtos)[k])
        invariant forall k :: k in produtos ==> produtos[k].codigo == k
        decreases chaves
      {
        var chave :| chave in chaves;
        var registro := produtos[chave];
        if registro.alertaEstoque.None? {
          registro := registro.(alertaEstoque := Some(0));
          assert registro.codigo == chave;
          produtos := produtos[registro.codigo := registro];
        }
        chaves := chaves - {chave};
      }
      assert !temProdutos ==> produtos == map[] by {
        if !temProdutos {
          assert produtos.Keys == {};
        }
      }
    }

    // ----- Produtos -----

    /** `addProduto`: put the record under its own `codigo`, overwriting any record there. */
    method AddProduto(p: Produto)
      requires Ready()
      modifies this`produtos
      ensures Ready()
      ensures produtos == old(produtos)[p.codigo := p]
    {
      produtos := produtos[p.codigo := p];
    }

    /** `updateProduto`: the same put as `addProduto`. */
    method UpdateProduto(p: Produto)
      requires Ready()
      modifies this`produtos
      ensures Ready()
      ensures produtos == old(produtos)[p.codigo := p]
    {
      AddProduto(p);
    }

    /** `deleteProduto`: remove the key; a missing key is no error. */
    method DeleteProduto(codigo: string)
      requires Ready()
      modifies this`produtos
      ensures Ready()
      ensures produtos == old(produtos) - {codigo}
    {
      produtos := produtos - {codigo};
    }

    /** `getProdutos`: every product once, in ascending key order. */
    method GetProdutos() returns (r: seq<Produto>)
      requires Ready()
      ensures |r| == |produtos|
      ensures forall p :: p in r <==> p in produtos.Values
      ensures forall i, j :: 0 <= i < j < |r| ==> Less(r[i].codigo, r[j].codigo)
    {
      var restantes := produtos.Keys;
      r := [];
      while restantes != {}
        invariant Listados(produtos, restantes, r)
        decreases restantes
      {
        MinimumExists(restantes);
        var chave :| chave in restantes && forall k :: k in restantes ==> LessEq(chave, k);
        ListadosStep(produtos, restantes, r, chave);
        r := r + [produtos[chave]];
        restantes := restantes - {chave};
      }
      assert |produtos| == |produtos.Keys|;
    }

    // ----- Vendas -----

    /** `addVenda`: store the sale under the next generated key and return that key. */
    method AddVenda(v: Venda) returns (id: nat)
      requires Ready()
      modifies this`vendas, this`proximoId
      ensures Ready()
      ensures id == old(proximoId) && id !in old(vendas)
      ensures forall j :: j in old(vendas) ==> j < id
      ensures vendas == old(vendas)[id := v] && proximoId == id + 1
    {
      id := proximoId;
      vendas := vendas[id := v];
      proximoId := proximoId + 1;
    }

    /** `getVendas`: every sale once, in ascending id order. */
    method GetVendas() returns (r: seq<Venda>, ghost ids: seq<nat>)
      requires Ready()
      ensures Lista(vendas, vendas.Keys, ids, r)
      ensures forall i, j :: 0 <= i < j < |ids| ==> ids[i] < ids[j]
      ensures forall v :: v in r <==> v in vendas.Values
    {
      r, ids := [], [];
      var id := 1;
      while id < proximoId
        invariant 1 <= id <= proximoId
        invariant |ids| == |r|
        invariant forall i :: 0 <= i < |ids| ==> ids[i] in vendas && ids[i] < id && r[i] == vendas[ids[i]]
        invariant forall i, j :: 0 <= i < j < |ids| ==> ids[i] < ids[j]
        invariant forall k :: k in vendas && k < id ==> k in ids
      {
        if id in vendas {
          r, ids := r + [vendas[id]], ids + [id];
        }
        id := id + 1;
      }
      ListaValues(vendas, ids, r);
    }

    /** `getVendasPorPeriodo`: open a cursor on the "data" index over the inclusive range
        [inicio, fim] and push each record it visits. `IDBKeyRange.bound` refuses a range
        whose lower bound is above its upper bound; that is the `None` result. Every call
        of `continue` moves to the next index key, so each step takes the least remaining
        (data, id) position in the range. */
    method GetVendasPorPeriodo(inicio: string, fim: string) returns (r: Option<seq<Venda>>, ghost ids: seq<nat>)
      requires Ready()
      ensures r.None? <==> Less(fim, inicio)
      ensures r.Some? ==> Lista(vendas, NoPeriodo(vendas, inicio, fim), ids, r.value)
      ensures r.Some? ==> forall i, j :: 0 <= i < j < |ids| ==> IndexLess(vendas, ids[i], ids[j])
      ensures r.Some? ==> forall i, j :: 0 <= i < j < |r.value| ==> LessEq(r.value[i].data, r.value[j].data)
    {
      ids := [];
      if Less(fim, inicio) {
        return None, ids;
      }
      var restantes := set id | id in vendas && NoIntervalo(vendas[id].data, inicio, fim);
      ghost var alvo := restantes;
      var lista: seq<Venda> := [];
      while restantes != {}
        invariant alvo == NoPeriodo(vendas, inicio, fim)
        invariant Varridos(vendas, alvo, restantes, ids, lista)
        decreases restantes
      {
        IndexMinimumExists(vendas, restantes);
        var id :| id in restantes && forall k :: k in restantes ==> IndexLessEq(vendas, id, k);
        VarridosStep(vendas, alvo, restantes, ids, lista, id);
        lista, ids := lista + [vendas[id]], ids + [id];
        restantes := restantes - {id};
      }
      forall i, j | 0 <= i < j < |ids| ensures ids[i] != ids[j] {
        IndexLessIrreflexive(vendas, ids[i]);
      }
      r := Some(lista);
    }
  }
}
