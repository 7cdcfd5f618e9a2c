# Ledger kernel of the AT2_N1-Banco bank simulation

The Java program simulates a bank: customers (`Cliente`) buy items by
debiting their accounts, employees (`Funcionario`) move part of their store's
account into an investment account, and a driver loop in `main` keeps asking
the bank (`Banco`) to transfer money from customer accounts to store accounts.
Underneath the threads sits a small sequential ledger kernel, and that kernel
is what this project models and proves things about.

- `contas.dfy`, module `Contas`: the account `Conta` (name and balance) with
  `Creditar` and `Debitar`.
- `banco.dfy`, module `Banco`: the ledger (all accounts, an account's identity
  being its index, as a Java reference is), its total, credit and debit of one
  account of the ledger, and `Banco.transferir` as `Transferir`.
- `simulacao.dfy`, module `Simulacao`: one pass of the five fixed transfers of
  the loop in `main`, as a fold of `Transferir` over a list of orders.
- `clientes.dfy`, module `Clientes`: the purchase loop of `Cliente.run`, as a
  recursive function `Executar` and as the loop `Run` itself.
- `funcionarios.dfy`, module `Funcionarios`: the critical section of
  `Funcionario.run` as `Investir`, and `n` passes of it.

Assumptions of the model:

- Each critical section is one atomic step. The source does not actually make
  them atomic: `Banco` locks its own lock while `Cliente` locks the account's
  monitor, and `getSaldo` is not synchronized, so a transfer and a purchase on
  the same account can interleave. A sequential model cannot express those
  races; it describes what each step does when it runs alone.
- Balances are Java `double`s; here they are exact `real`s, so rounding (for
  example of the `0.2` multiplication in the employee step) is not modelled.
- `Math.random()` becomes an input: `sorteio(k)` is the amount (100 or 200)
  drawn on the k-th pass of the customer loop.

Behaviour of the code worth knowing:

- `debitar` does not refuse an overdraft; it always subtracts. Only its callers
  check the balance first.
- `transferir` never checks the sign of the amount; a negative amount moves
  money from the destination to the source and can overdraw the destination
  (`Banco.ValorNegativoEsvaziaDestino`).
- A customer stops at the first refused purchase, so its final balance is below
  the last amount it tried, not necessarily below 100 (`Clientes.ParaAcimaDaMenorCompra`).
  The number of purchases is at most `B/100` rounded down.
- The employee step does not credit a salary; it only moves 20% of the current
  balance of the salary account (the store's account, shared by both employees
  of the store) to the employee's investment account.
- Two transfers of 700 and 500 out of an account holding 1000, run one after
  the other: exactly one goes through, and which one is decided by the order,
  so the source account ends with 300 (700 first) or with 500 (500 first)
  (`Simulacao.ApenasUmaTransferenciaPassa`).

## Model

| member | source | states |
|---|---|---|
| Contas.Creditar | src/Main.java:130-132 | crediting keeps the account's name and raises its balance by exactly the amount; a non-negative amount never lowers it |
| Contas.Debitar | src/Main.java:134-136 | debiting keeps the name and lowers the balance by exactly the amount; the result is non-negative exactly when the old balance covered the amount |
| Contas.DebitarDesfazCreditar | src/Main.java:130-136 | a debit undoes a credit of the same amount and a credit undoes a debit |
| Contas.CreditosSomam | src/Main.java:130-136 | two credits (two debits) in a row are one credit (debit) of the sum |
| Banco.CreditarEm | src/Main.java:130-132 | crediting one account of the ledger changes only that account, keeps every name, and raises the ledger's total by the amount |
| Banco.DebitarEm | src/Main.java:134-136 | debiting one account of the ledger changes only that account, keeps every name, and lowers the ledger's total by the amount |
| Banco.Transferir | src/Main.java:7-22 | a transfer keeps the total and every name, touches only the two accounts, changes nothing when the source does not cover the amount or source and destination are the same account, otherwise moves exactly the amount from source to destination; their sum is kept, and with a non-negative amount no account becomes overdrawn |
| Banco.TransferirNaoSaca | src/Main.java:7-12 | a transfer of a non-negative amount leaves every account that was not overdrawn not overdrawn, whatever the other balances, because the source is debited only when it covers the amount |
| Banco.TransferenciaEfetiva | src/Main.java:10-12 | a transfer the source covers, between two distinct accounts, is the debit of the source followed by the credit of the destination |
| Banco.TransferenciaAtomica | src/Main.java:10-18 | a transfer has exactly two possible outcomes: nothing changes, or both the debit and the credit happen |
| Banco.ValorNegativoEsvaziaDestino | src/Main.java:7-11 | since the amount's sign is never checked, a transfer of -50 between two empty accounts leaves the destination at -50 |
| Simulacao.Rodada | src/Main.java:170-174 | a sequence of transfers keeps the ledger's total and names, and with non-negative amounts keeps a ledger with no overdrawn account free of overdrawn accounts |
| Simulacao.RodadaNaoSaca | src/Main.java:170-174 | with non-negative amounts, a sequence of transfers leaves every account that was not overdrawn not overdrawn, whatever the other balances |
| Simulacao.RodadaMainConserva | src/Main.java:170-174 | one pass of the five transfers of `main` keeps the total of all accounts, whatever balances it starts from, and overdraws no account that was not overdrawn before it |
| Simulacao.RodadaMainCompleta | src/Main.java:170-174 | when every customer covers its amount, one pass takes 100, 200, 200, 100, 100 from the five customers, adds 400 to Loja1 and 300 to Loja2, and leaves every other account alone |
| Simulacao.PrimeiraRodada | src/Main.java:143-174 | from the starting balances (1000 per customer, 0 per store) the first pass leaves 900, 800, 800, 900, 900, Loja1 at 400 and Loja2 at 300 |
| Simulacao.ApenasUmaTransferenciaPassa | src/Main.java:7-18 | of two transfers of 700 and 500 from an account holding 1000, run in either order, exactly one goes through and the other leaves its destination unchanged |
| Clientes.NovoCliente | src/Main.java:79-83 | a new customer starts out buying, with the account it was given |
| Clientes.PararCompras | src/Main.java:85-87 | stopping purchases clears the flag and leaves the account alone |
| Clientes.Comprar | src/Main.java:92-100 | one pass keeps buying exactly when the balance covers the drawn amount, then debits exactly that amount and stays non-negative; otherwise the balance is unchanged and the customer stops |
| Clientes.Executar | src/Main.java:89-108 | the purchase loop always ends stopped, whatever the starting balance; it makes one more pass than it has purchases; the balance falls by exactly the sum of the draws it bought, which are the first draws in a row, so by between 100 and 200 per purchase; from a non-negative balance it stays non-negative and makes at most balance/100 purchases; it stops with a balance below the last amount tried; a stopped customer makes no pass |
| Clientes.Run | src/Main.java:91-107 | the `while (continuarComprando)` loop terminates and computes the outcome `Executar` describes |
| Clientes.ParaAcimaDaMenorCompra | src/Main.java:91-99 | a customer holding 150 whose draw is 200 stops at once with 150, more than the smallest purchase |
| Funcionarios.Investir | src/Main.java:51-62 | the investment step keeps the total and names and touches only the two accounts; from a non-negative salary balance the salary account keeps 80% and the investment account gains the other 20%; from a negative one nothing changes; no account becomes overdrawn |
| Funcionarios.InvestirEhTransferencia | src/Main.java:52-57 | the investment step is exactly a guarded transfer of 20% of the salary balance |
| Funcionarios.InvestimentoDe1400 | src/Main.java:52-57 | a salary balance of 1400 invests 280 and keeps 1120 |
| Funcionarios.InvestirVezes | src/Main.java:49-70 | any number of passes keeps the total and names, leaves every account other than the salary and investment accounts unchanged, keeps a non-negative salary balance non-negative, and from a ledger with no overdrawn account overdraws none |
| Funcionarios.InvestirVezesFechado | src/Main.java:49-70 | after n passes from salary balance s ≥ 0 the salary account holds s·0.8ⁿ and the investment account has gained exactly s − s·0.8ⁿ |

## Left out

- Threads, `ReentrantLock`, `synchronized` monitors, `isInterrupted`, `Thread.sleep` and `InterruptedException`: concurrency plumbing that a sequential model cannot express; every critical section is taken as atomic, so the races between `Banco`'s lock and the account monitors are not modelled.
- `Math.random()`: replaced by the input `sorteio`, a stream of amounts each 100 or 200.
- Rounding of Java `double` arithmetic: balances are exact reals.
- All `System.out.println` logging: output only.
- `Loja`: a holder for an account with no logic of its own.
- `Conta.getSaldo` and `Conta.getNome`: plain reads of the record's fields.
- The construction of accounts and actors in `main` and the starting of threads: only the customers' and stores' starting balances appear, in `Simulacao.Inicial`; the four investment accounts are left out of it.
- The endless `while (true)` loop of the transfer thread: one pass of its body is modelled; the interleaving of passes with the actors is concurrency.
- Interruption of `Funcionario.run`: `InvestirVezes` models `n` uninterrupted passes.
