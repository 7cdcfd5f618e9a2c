/** The customer of `Cliente.run`: while `continuarComprando` holds, draw a
    purchase of 100 or 200 and debit it if the account covers it; otherwise
    stop buying.

    The random draw (`Math.random`) becomes an input: `sorteio(k)` is the
    amount drawn on the k-th pass of the loop. The critical section on the
    account is one atomic step; the sleep between passes is not modelled. */
module Clientes {
  import opened Contas

  datatype Cliente = Cliente(nome: string, conta: Conta, continuarComprando: bool)

  /** The two amounts the source draws from. */
  predicate ValorDeCompra(v: real)
  {
    v == 100.0 || v == 200.0
  }

  /** A source of draws that only ever yields 100 or 200. */
  ghost predicate SorteioValido(sorteio: nat -> real)
  {
    forall k: nat :: ValorDeCompra(sorteio(k))
  }

  /** A freshly built customer: still buying. */
  function NovoCliente(nome: string, conta: Conta): (c: Cliente)
    ensures c.continuarComprando
    ensures c.conta == conta
  {
    Cliente(nome, conta, true)
  }

  /** `Cliente.pararCompras`: the customer stops buying; the account is untouched. */
  function PararCompras(c: Cliente): (r: Cliente)
    ensures !r.continuarComprando
    ensures r.conta == c.conta && r.nome == c.nome
  {
    c.(continuarComprando := false)
  }

  /** One pass of the loop body: buy when the balance covers `valorCompra`,
      otherwise call `pararCompras` and leave the balance alone. */
  function Comprar(c: Cliente, valorCompra: real): (r: Cliente)
    ensures r.nome == c.nome && r.conta.nome == c.conta.nome
    ensures r.continuarComprando <==> c.continuarComprando && c.conta.saldo >= valorCompra
    ensures c.conta.saldo >= valorCompra ==> r.conta.saldo == c.conta.saldo - valorCompra
    ensures c.conta.saldo < valorCompra ==> r.conta == c.conta
    ensures c.conta.saldo >= valorCompra ==> r.conta.saldo >= 0.0
  {
    if c.conta.saldo >= valorCompra then
      c.(conta := Debitar(c.conta, valorCompra))
    else
      PararCompras(c)
  }

  /** The loop's variant: purchases of at least 100 each can only happen
      about saldo/100 more times, and a stopped customer has none left. */
  function Restantes(c: Cliente): nat
  {
    if !c.continuarComprando then 0
    else if c.conta.saldo < 0.0 then 1
    else 1 + (c.conta.saldo / 100.0).Floor
  }

  /** The sum of the `n` draws from the k-th on: what `n` purchases in a row cost. */
  function Gasto(sorteio: nat -> real, k: nat, n: nat): real
    decreases n
  {
    if n == 0 then 0.0 else sorteio(k) + Gasto(sorteio, k + 1, n - 1)
  }

  /** How `Cliente.run` ends: the final customer, how many purchases went
      through, and how many passes the loop made. */
  datatype Desfecho = Desfecho(cliente: Cliente, compras: nat, passos: nat)

  /** `Cliente.run`, from the k-th draw on. The loop ends whatever the draws
      and whatever the starting balance: each purchase takes at least 100,
      and the first refusal stops it. */
  function Executar(c: Cliente, sorteio: nat -> real, k: nat): (d: Desfecho)
    requires SorteioValido(sorteio)
    decreases Restantes(c)
    ensures !d.cliente.continuarComprando
    ensures d.cliente.nome == c.nome && d.cliente.conta.nome == c.conta.nome
    ensures d.passos == if c.continuarComprando then d.compras + 1 else 0
    ensures c.conta.saldo - d.cliente.conta.saldo == Gasto(sorteio, k, d.compras)
    ensures c.conta.saldo - d.cliente.conta.saldo >= 100.0 * d.compras as real
    ensures c.conta.saldo - d.cliente.conta.saldo <= 200.0 * d.compras as real
    ensures c.conta.saldo >= 0.0 ==> d.cliente.conta.saldo >= 0.0
    ensures c.conta.saldo >= 0.0 ==> 100.0 * d.compras as real <= c.conta.saldo
    ensures c.continuarComprando ==> d.cliente.conta.saldo < sorteio(k + d.passos - 1)
    ensures !c.continuarComprando ==> d == Desfecho(c, 0, 0)
  {
    if !c.continuarComprando then
      Desfecho(c, 0, 0)
    else
      var c' := Comprar(c, sorteio(k));
      var d := Executar(c', sorteio, k + 1);
      Desfecho(d.cliente, if c'.continuarComprando then d.compras + 1 else d.compras, d.passos + 1)
  }

  /** The `while (continuarComprando)` loop of `Cliente.run` as written,
      one pass per iteration; it computes exactly what `Executar` describes. */
  method Run(c: Cliente, sorteio: nat -> real) returns (d: Desfecho)
    requires SorteioValido(sorteio)
    ensures d == Executar(c, sorteio, 0)
    ensures !d.cliente.continuarComprando
  {
    var atual := c;
    var compras: nat := 0;
    var passos: nat := 0;
    while atual.continuarComprando
      invariant var e := Executar(atual, sorteio, passos);
                Executar(c, sorteio, 0) ==
                Desfecho(e.cliente, e.compras + compras, e.passos + passos)
      decreases Restantes(atual)
    {
      var valorCompra := sorteio(passos);
      var seguinte := Comprar(atual, valorCompra);
      ghost var e := Executar(seguinte, sorteio, passos + 1);
      assert Executar(atual, sorteio, passos) ==
             Desfecho(e.cliente, if seguinte.continuarComprando then e.compras + 1 else e.compras, e.passos + 1);
      atual := seguinte;
      if atual.continuarComprando {
        compras := compras + 1;
      }
      passos := passos + 1;
    }
    d := Desfecho(atual, compras, passos);
  }

  /** The final balance is below the last amount tried, but not necessarily
      below the smallest one: with 150 left and a draw of 200, the customer
      stops holding more than 100. */
  lemma ParaAcimaDaMenorCompra()
    ensures var c := NovoCliente("Cliente1", Conta("ContaCliente1", 150.0));
            var d := Executar(c, _ => 200.0, 0);
            d.compras == 0 && d.cliente.conta.saldo == 150.0
  {
  }
}
