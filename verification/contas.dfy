/** Accounts (`Conta` in src/Main.java): a display name and a balance.

    The source keeps the balance in a Java `double`; this model uses exact
    `real` arithmetic, so rounding is not modelled. */
module Contas {

  datatype Conta = Conta(nome: string, saldo: real)

  /** `Conta.creditar`: the balance grows by exactly `valor`; the name never changes. */
  function Creditar(c: Conta, valor: real): (r: Conta)
    ensures r.nome == c.nome
    ensures r.saldo - c.saldo == valor
    ensures valor >= 0.0 ==> r.saldo >= c.saldo
  {
    c.(saldo := c.saldo + valor)
  }

  /** `Conta.debitar`: the balance shrinks by exactly `valor`; the name never
      changes. Like the source, it does not refuse an overdraft: only a caller
      that checked `saldo >= valor` first keeps the balance non-negative. */
  function Debitar(c: Conta, valor: real): (r: Conta)
    ensures r.nome == c.nome
    ensures c.saldo - r.saldo == valor
    ensures r.saldo >= 0.0 <==> c.saldo >= valor
  {
    c.(saldo := c.saldo - valor)
  }

  /** A debit undoes a credit of the same amount, and the other way round. */
  lemma DebitarDesfazCreditar(c: Conta, valor: real)
    ensures Debitar(Creditar(c, valor), valor) == c
    ensures Creditar(Debitar(c, valor), valor) == c
  {
  }

  /** Two credits add up: crediting `a` then `b` is crediting `a + b`. */
  lemma CreditosSomam(c: Conta, a: real, b: real)
    ensures Creditar(Creditar(c, a), b) == Creditar(c, a + b)
    ensures Debitar(Debitar(c, a), b) == Debitar(c, a + b)
  {
  }
}
