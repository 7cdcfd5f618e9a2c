/** The bank's ledger and `Banco.transferir`.

    Java accounts are shared objects; here the set of all accounts is a
    sequence and an account's identity is its index in it, so two references
    to the same object are two equal indices. Every operation is one atomic
    step: the locks of the source are not modelled. */
module Banco {
  import opened Contas

  type Ledger = seq<Conta>

  /** Sum of all balances in the ledger. */
  function Total(l: Ledger): real
  {
    if |l| == 0 then 0.0 else l[0].saldo + Total(l[1..])
  }

  /** No account is overdrawn. */
  predicate NaoNegativo(l: Ledger)
  {
    forall j :: 0 <= j < |l| ==> l[j].saldo >= 0.0
  }

  /** The two ledgers hold the same accounts under the same names. */
  predicate MesmosNomes(l: Ledger, r: Ledger)
  {
    |r| == |l| && forall j :: 0 <= j < |l| ==> r[j].nome == l[j].nome
  }

  /** Replacing one account changes the total by exactly the change in its balance. */
  lemma {:induction false} TotalSubstitui(l: Ledger, i: nat, c: Conta)
    requires i < |l|
    ensures Total(l[i := c]) == Total(l) - l[i].saldo + c.saldo
  {
    if i == 0 {
      assert l[i := c][1..] == l[1..];
    } else {
      assert l[i := c][1..] == l[1..][i - 1 := c];
      TotalSubstitui(l[1..], i - 1, c);
    }
  }

  /** `Conta.creditar` applied to the account at index `i`. */
  function CreditarEm(l: Ledger, i: nat, valor: real): (r: Ledger)
    requires i < |l|
    ensures MesmosNomes(l, r)
    ensures r[i].saldo == l[i].saldo + valor
    ensures forall j :: 0 <= j < |l| && j != i ==> r[j] == l[j]
    ensures Total(r) == Total(l) + valor
  {
    TotalSubstitui(l, i, Creditar(l[i], valor));
    l[i := Creditar(l[i], valor)]
  }

  /** `Conta.debitar` applied to the account at index `i`. */
  function DebitarEm(l: Ledger, i: nat, valor: real): (r: Ledger)
    requires i < |l|
    ensures MesmosNomes(l, r)
    ensures r[i].saldo == l[i].saldo - valor
    ensures forall j :: 0 <= j < |l| && j != i ==> r[j] == l[j]
    ensures Total(r) == Total(l) - valor
  {
    TotalSubstitui(l, i, Debitar(l[i], valor));
    l[i := Debitar(l[i], valor)]
  }

  /** `Banco.transferir`: when the source covers the amount, debit the source
      and credit the destination; otherwise change nothing. As in the source,
      the sign of `valor` is not checked, and a transfer from an account to
      itself debits and credits the same account. */
  function Transferir(l: Ledger, origem: nat, destino: nat, valor: real): (r: Ledger)
    requires origem < |l| && destino < |l|
    ensures MesmosNomes(l, r)
    ensures Total(r) == Total(l)
    ensures forall j :: 0 <= j < |l| && j != origem && j != destino ==> r[j] == l[j]
    ensures l[origem].saldo < valor ==> r == l
    ensures origem == destino ==> r == l
    ensures l[origem].saldo >= valor && origem != destino ==>
              r[origem].saldo == l[origem].saldo - valor &&
              r[destino].saldo == l[destino].saldo + valor
    ensures origem != destino ==>
              r[origem].saldo + r[destino].saldo == l[origem].saldo + l[destino].saldo
    ensures valor >= 0.0 && NaoNegativo(l) ==> NaoNegativo(r)
  {
    if l[origem].saldo >= valor then
      var d := DebitarEm(l, origem, valor);
      var r := CreditarEm(d, destino, valor);
      assert origem == destino ==> r == l;
      r
    else
      l
  }

  /** A transfer of a non-negative amount overdraws no account that was not
      overdrawn before it, whatever the other balances. */
  lemma TransferirNaoSaca(l: Ledger, origem: nat, destino: nat, valor: real, j: nat)
    requires origem < |l| && destino < |l| && valor >= 0.0
    requires j < |l| && l[j].saldo >= 0.0
    ensures Transferir(l, origem, destino, valor)[j].saldo >= 0.0
  {
    if l[origem].saldo >= valor && origem != destino && j == origem {
      assert Transferir(l, origem, destino, valor)[j].saldo == l[origem].saldo - valor;
    }
  }

  /** The ledger after `valor` is debited from `origem` and credited to `destino`. */
  function Movido(l: Ledger, origem: nat, destino: nat, valor: real): Ledger
    requires origem < |l| && destino < |l|
  {
    l[origem := Debitar(l[origem], valor)][destino := Creditar(l[destino], valor)]
  }

  /** A transfer that goes through between two distinct accounts, as a
      debit of the source followed by a credit of the destination. */
  lemma TransferenciaEfetiva(l: Ledger, origem: nat, destino: nat, valor: real)
    requires origem < |l| && destino < |l| && origem != destino
    requires l[origem].saldo >= valor
    ensures Transferir(l, origem, destino, valor)
            == Movido(l, origem, destino, valor)
  {
  }

  /** The only two outcomes of a transfer: all of it or none of it. */
  lemma TransferenciaAtomica(l: Ledger, origem: nat, destino: nat, valor: real)
    requires origem < |l| && destino < |l| && origem != destino
    ensures var r := Transferir(l, origem, destino, valor);
            r == l ||
            r == Movido(l, origem, destino, valor)
  {
  }

  /** Without the sign check the source omits, a negative amount moves money
      the other way and can overdraw the destination. */
  lemma ValorNegativoEsvaziaDestino()
    ensures var l := [Conta("A", 0.0), Conta("B", 0.0)];
            var r := Transferir(l, 0, 1, -50.0);
            r[0].saldo == 50.0 && r[1].saldo == -50.0 && !NaoNegativo(r)
  {
  }
}
