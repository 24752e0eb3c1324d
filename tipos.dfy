/** Records shared by the store, the checkout, the product register and the dashboard. */
module Tipos {

  datatype Option<T> = None | Some(value: T)

  function Min(a: int, b: int): (r: int) { if a <= b then a else b }
  function Max(a: int, b: int): (r: int) { if a >= b then a else b }

  /** The three payment methods a sale can record ("Dinheiro", "Cartão", "PIX"). */
  datatype Pagamento = Dinheiro | Cartao | PIX

  /** A product record, keyed by `codigo` in the store. Prices are integer cents and the
      stock an integer count; `alertaEstoque` is `None` when the record lacks the field. */
  datatype Produto = Produto(
    nome: string,
    codigo: string,
    ean: string,
    precoVenda: int,
    precoCusto: int,
    categoria: string,
    estoque: int,
    alertaEstoque: Option<int>)

  /** A cart line: a copy of the product as it was selected, plus the quantity. */
  datatype ItemCarrinho = ItemCarrinho(produto: Produto, quantidade: int)
  {
    function Codigo(): (c: string) { produto.codigo }
  }

  /** A sale as written to the ledger; the store keeps it under its generated id. */
  datatype Venda = Venda(data: string, itens: seq<ItemCarrinho>, total: int, pagamento: Pagamento)
}
