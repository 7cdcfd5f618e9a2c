/** The employee of `Funcionario.run`: inside the monitor of its salary
    account, it moves 20% of the salary balance into its investment account.

    Accounts are ledger indices, since two employees of the same store share
    one salary account (the store's). The critical section is one atomic step;
    the sleep and the interruption of the thread are not modelled. */
module Funcionarios {
  import opened Contas
  import opened Banco

  datatype Funcionario = Funcionario(nome: string, contaSalario: nat, contaInvestimento: nat)

  /** The share of the salary balance invested on each pass. */
  const PercentualInvestimento: real := 0.2

  /** Both accounts of the employee exist in the ledger. */
  predicate Contratado(l: Ledger, f: Funcionario)
  {
    f.contaSalario < |l| && f.contaInvestimento < |l|
  }

  /** One pass of the critical section of `Funcionario.run`. The guard
      `salario >= valorInvestimento` holds exactly when the salary balance is
      not negative; then the salary account keeps 80% and the investment
      account receives the other 20%. */
  function Investir(l: Ledger, f: Funcionario): (r: Ledger)
    requires Contratado(l, f)
    ensures MesmosNomes(l, r)
    ensures Total(r) == Total(l)
    ensures forall j :: 0 <= j < |l| && j != f.contaSalario && j != f.contaInvestimento ==> r[j] == l[j]
    ensures l[f.contaSalario].saldo >= 0.0 && f.contaSalario != f.contaInvestimento ==>
              r[f.contaSalario].saldo == 0.8 * l[f.contaSalario].saldo &&
              r[f.contaInvestimento].saldo == l[f.contaInvestimento].saldo + 0.2 * l[f.contaSalario].saldo
    ensures l[f.contaSalario].saldo < 0.0 ==> r == l
    ensures l[f.contaSalario].saldo >= 0.0 ==> r[f.contaSalario].saldo >= 0.0
    ensures f.contaSalario == f.contaInvestimento ==> r == l
    ensures NaoNegativo(l) ==> NaoNegativo(r)
  {
    var salario := l[f.contaSalario].saldo;
    var valorInvestimento := salario * PercentualInvestimento;
    if salario >= valorInvestimento then
      CreditarEm(DebitarEm(l, f.contaSalario, valorInvestimento), f.contaInvestimento, valorInvestimento)
    else
      l
  }

  /** The investment step is a guarded transfer of 20% of the salary balance:
      the guard of `Funcionario.run` and that of `Banco.transferir` agree. */
  lemma InvestirEhTransferencia(l: Ledger, f: Funcionario)
    requires Contratado(l, f)
    ensures Investir(l, f) == Transferir(l, f.contaSalario, f.contaInvestimento,
                                         l[f.contaSalario].saldo * PercentualInvestimento)
  {
  }

  /** A salary balance of 1400 yields an investment of 280 and keeps 1120. */
  lemma InvestimentoDe1400(i: real)
    ensures var l := [Conta("Loja1", 1400.0), Conta("Investimento1Loja1", i)];
            Investir(l, Funcionario("Funcionario1Loja1", 0, 1))
            == [Conta("Loja1", 1120.0), Conta("Investimento1Loja1", i + 280.0)]
  {
  }

  /** `s` reduced to 80% `n` times over, that is `s * 0.8^n`. */
  function Reduzido(s: real, n: nat): (r: real)
    ensures s >= 0.0 ==> 0.0 <= r <= s
  {
    if n == 0 then s else 0.8 * Reduzido(s, n - 1)
  }

  /** `n` uninterrupted passes of the loop of `Funcionario.run`. */
  function InvestirVezes(l: Ledger, f: Funcionario, n: nat): (r: Ledger)
    requires Contratado(l, f)
    ensures MesmosNomes(l, r)
    ensures Total(r) == Total(l)
    ensures NaoNegativo(l) ==> NaoNegativo(r)
    ensures l[f.contaSalario].saldo >= 0.0 ==> r[f.contaSalario].saldo >= 0.0
    ensures forall j :: 0 <= j < |l| && j != f.contaSalario && j != f.contaInvestimento ==> r[j] == l[j]
  {
    if n == 0 then l else Investir(InvestirVezes(l, f, n - 1), f)
  }

  /** After `n` passes from a non-negative salary balance `s`, the salary
      account holds `s * 0.8^n` and the investment account has gained exactly
      what the salary account lost. */
  lemma {:induction false} InvestirVezesFechado(l: Ledger, f: Funcionario, n: nat)
    requires Contratado(l, f) && f.contaSalario != f.contaInvestimento
    requires l[f.contaSalario].saldo >= 0.0
    ensures var r := InvestirVezes(l, f, n);
            var s := l[f.contaSalario].saldo;
            && r[f.contaSalario].saldo == Reduzido(s, n)
            && r[f.contaInvestimento].saldo == l[f.contaInvestimento].saldo + (s - Reduzido(s, n))
  {
    if n > 0 {
      InvestirVezesFechado(l, f, n - 1);
    }
  }
}
