/** One round of the transfer loop that `main` runs forever: a fixed list of
    transfers, each made through `Banco.transferir`, applied in order. */
module Simulacao {
  import opened Contas
  import opened Banco

  /** One `banco.transferir(origem, destino, valor)` call of the round. */
  datatype Ordem = Ordem(origem: nat, destino: nat, valor: real)

  /** Every transfer of the list names accounts of the ledger. */
  predicate Aplicavel(l: Ledger, os: seq<Ordem>)
  {
    forall k :: 0 <= k < |os| ==> os[k].origem < |l| && os[k].destino < |l|
  }

  /** No transfer of the list carries a negative amount. */
  predicate ValoresNaoNegativos(os: seq<Ordem>)
  {
    forall k :: 0 <= k < |os| ==> os[k].valor >= 0.0
  }

  /** The transfers of `os`, one after the other. */
  function Rodada(l: Ledger, os: seq<Ordem>): (r: Ledger)
    requires Aplicavel(l, os)
    ensures MesmosNomes(l, r)
    ensures Total(r) == Total(l)
    ensures ValoresNaoNegativos(os) && NaoNegativo(l) ==> NaoNegativo(r)
    decreases |os|
  {
    if |os| == 0 then l
    else
      var o := os[0];
      var l' := Transferir(l, o.origem, o.destino, o.valor);
      assert Aplicavel(l', os[1..]);
      Rodada(l', os[1..])
  }

  /** With non-negative amounts, a sequence of transfers overdraws no account
      that was not overdrawn before it, whatever the other balances. */
  lemma {:induction false} RodadaNaoSaca(l: Ledger, os: seq<Ordem>, j: nat)
    requires Aplicavel(l, os) && ValoresNaoNegativos(os)
    requires j < |l| && l[j].saldo >= 0.0
    ensures j < |Rodada(l, os)| && Rodada(l, os)[j].saldo >= 0.0
    decreases |os|
  {
    if |os| > 0 {
      var o := os[0];
      var l' := Transferir(l, o.origem, o.destino, o.valor);
      assert Aplicavel(l', os[1..]);
      TransferirNaoSaca(l, o.origem, o.destino, o.valor, j);
      RodadaNaoSaca(l', os[1..], j);
    }
  }

  /** Accounts of the topology `main` builds, by index in the ledger. */
  const ContaCliente1: nat := 0
  const ContaCliente2: nat := 1
  const ContaCliente3: nat := 2
  const ContaCliente4: nat := 3
  const ContaCliente5: nat := 4
  const ContaLoja1: nat := 5
  const ContaLoja2: nat := 6

  /** The five transfers of one pass of the loop in `main`. */
  const TransferenciasMain: seq<Ordem> := [
    Ordem(ContaCliente1, ContaLoja1, 100.0),
    Ordem(ContaCliente2, ContaLoja2, 200.0),
    Ordem(ContaCliente3, ContaLoja1, 200.0),
    Ordem(ContaCliente4, ContaLoja2, 100.0),
    Ordem(ContaCliente5, ContaLoja1, 100.0)
  ]

  /** The balances `main` starts with: 1000 for each customer, 0 for each store. */
  const Inicial: Ledger := [
    Conta("ContaCliente1", 1000.0), Conta("ContaCliente2", 1000.0),
    Conta("ContaCliente3", 1000.0), Conta("ContaCliente4", 1000.0),
    Conta("ContaCliente5", 1000.0), Conta("Loja1", 0.0), Conta("Loja2", 0.0)
  ]

  /** A pass of `main`'s loop keeps the money in the system, whatever the
      balances it finds, and never overdraws an account that was not
      overdrawn already. */
  lemma RodadaMainConserva(l: Ledger)
    requires |l| >= 7
    ensures Aplicavel(l, TransferenciasMain)
    ensures Total(Rodada(l, TransferenciasMain)) == Total(l)
    ensures NaoNegativo(l) ==> NaoNegativo(Rodada(l, TransferenciasMain))
    ensures forall j :: 0 <= j < |l| && l[j].saldo >= 0.0 ==> Rodada(l, TransferenciasMain)[j].saldo >= 0.0
  {
    assert ValoresNaoNegativos(TransferenciasMain);
    forall j | 0 <= j < |l| && l[j].saldo >= 0.0
      ensures Rodada(l, TransferenciasMain)[j].saldo >= 0.0
    {
      RodadaNaoSaca(l, TransferenciasMain, j);
    }
  }

  /** A round whose first transfer goes through. */
  lemma RodadaPasso(l: Ledger, os: seq<Ordem>)
    requires |os| > 0 && Aplicavel(l, os)
    requires os[0].origem != os[0].destino && l[os[0].origem].saldo >= os[0].valor
    ensures Aplicavel(Movido(l, os[0].origem, os[0].destino, os[0].valor), os[1..])
    ensures Rodada(l, os) == Rodada(Movido(l, os[0].origem, os[0].destino, os[0].valor), os[1..])
  {
    var o := os[0];
    TransferenciaEfetiva(l, o.origem, o.destino, o.valor);
  }

  /** Whether each customer of `main` covers the amount it sends per pass. */
  predicate ClientesCobrem(l: Ledger)
  {
    && |l| >= 7
    && l[ContaCliente1].saldo >= 100.0 && l[ContaCliente2].saldo >= 200.0
    && l[ContaCliente3].saldo >= 200.0 && l[ContaCliente4].saldo >= 100.0
    && l[ContaCliente5].saldo >= 100.0
  }

  /** When every customer covers its amount, a pass of `main`'s loop is the
      five transfers carried out one after the other. */
  lemma RodadaMainCadeia(l: Ledger)
    requires ClientesCobrem(l)
    ensures Aplicavel(l, TransferenciasMain)
    ensures var l1 := Movido(l, ContaCliente1, ContaLoja1, 100.0);
            var l2 := Movido(l1, ContaCliente2, ContaLoja2, 200.0);
            var l3 := Movido(l2, ContaCliente3, ContaLoja1, 200.0);
            var l4 := Movido(l3, ContaCliente4, ContaLoja2, 100.0);
            Rodada(l, TransferenciasMain) == Movido(l4, ContaCliente5, ContaLoja1, 100.0)
  {
    var os := TransferenciasMain;
    var l1 := Movido(l, ContaCliente1, ContaLoja1, 100.0);
    var l2 := Movido(l1, ContaCliente2, ContaLoja2, 200.0);
    var l3 := Movido(l2, ContaCliente3, ContaLoja1, 200.0);
    var l4 := Movido(l3, ContaCliente4, ContaLoja2, 100.0);
    RodadaPasso(l, os);
    RodadaPasso(l1, os[1..]);
    RodadaPasso(l2, os[2..]);
    RodadaPasso(l3, os[3..]);
    RodadaPasso(l4, os[4..]);
    assert os[5..] == [];
  }

  /** The balances after the five transfers of `main` carried out in turn. */
  lemma CadeiaSaldos(l: Ledger)
    requires |l| >= 7
    ensures var l1 := Movido(l, ContaCliente1, ContaLoja1, 100.0);
            var l2 := Movido(l1, ContaCliente2, ContaLoja2, 200.0);
            var l3 := Movido(l2, ContaCliente3, ContaLoja1, 200.0);
            var l4 := Movido(l3, ContaCliente4, ContaLoja2, 100.0);
            var r := Movido(l4, ContaCliente5, ContaLoja1, 100.0);
            && r[ContaCliente1].saldo == l[ContaCliente1].saldo - 100.0
            && r[ContaCliente2].saldo == l[ContaCliente2].saldo - 200.0
            && r[ContaCliente3].saldo == l[ContaCliente3].saldo - 200.0
            && r[ContaCliente4].saldo == l[ContaCliente4].saldo - 100.0
            && r[ContaCliente5].saldo == l[ContaCliente5].saldo - 100.0
            && r[ContaLoja1].saldo == l[ContaLoja1].saldo + 400.0
            && r[ContaLoja2].saldo == l[ContaLoja2].saldo + 300.0
            && forall j :: 7 <= j < |l| ==> r[j] == l[j]
  {
  }

  /** When every customer covers its fixed amount, a pass of `main`'s loop
      moves 400 into Loja1 and 300 into Loja2 and takes from each customer
      exactly what it owes; nothing else changes. */
  lemma RodadaMainCompleta(l: Ledger)
    requires ClientesCobrem(l)
    ensures Aplicavel(l, TransferenciasMain)
    ensures var r := Rodada(l, TransferenciasMain);
            && r[ContaCliente1].saldo == l[ContaCliente1].saldo - 100.0
            && r[ContaCliente2].saldo == l[ContaCliente2].saldo - 200.0
            && r[ContaCliente3].saldo == l[ContaCliente3].saldo - 200.0
            && r[ContaCliente4].saldo == l[ContaCliente4].saldo - 100.0
            && r[ContaCliente5].saldo == l[ContaCliente5].saldo - 100.0
            && r[ContaLoja1].saldo == l[ContaLoja1].saldo + 400.0
            && r[ContaLoja2].saldo == l[ContaLoja2].saldo + 300.0
            && forall j :: 7 <= j < |l| ==> r[j] == l[j]
  {
    RodadaMainCadeia(l);
    CadeiaSaldos(l);
  }

  /** From the balances `main` starts with, the first pass leaves the
      customers with 900, 800, 800, 900 and 900, Loja1 with 400 and Loja2
      with 300. */
  lemma PrimeiraRodada()
    ensures Aplicavel(Inicial, TransferenciasMain)
    ensures var r := Rodada(Inicial, TransferenciasMain);
            && r[ContaCliente1].saldo == 900.0 && r[ContaCliente2].saldo == 800.0
            && r[ContaCliente3].saldo == 800.0 && r[ContaCliente4].saldo == 900.0
            && r[ContaCliente5].saldo == 900.0
            && r[ContaLoja1].saldo == 400.0 && r[ContaLoja2].saldo == 300.0
  {
    RodadaMainCompleta(Inicial);
  }

  /** Two transfers of 700 and 500 out of an account holding 1000, run one
      after the other in either order: exactly one goes through, and the
      other leaves its destination unchanged. */
  lemma ApenasUmaTransferenciaPassa(b: real, c: real)
    ensures var l := [Conta("A", 1000.0), Conta("B", b), Conta("C", c)];
            var r := Rodada(l, [Ordem(0, 1, 700.0), Ordem(0, 2, 500.0)]);
            r == [Conta("A", 300.0), Conta("B", b + 700.0), Conta("C", c)]
    ensures var l := [Conta("A", 1000.0), Conta("B", b), Conta("C", c)];
            var r := Rodada(l, [Ordem(0, 2, 500.0), Ordem(0, 1, 700.0)]);
            r == [Conta("A", 500.0), Conta("B", b), Conta("C", c + 500.0)]
  {
  }
}
