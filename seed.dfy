/** `seedTransactions`: fill the first user's first account with 91 days of random income and
    expense transactions and set the account's balance to their net total.

    Randomness is an oracle: `draws(k)` is the k-th call of `Math.random()`, read as a natural
    number whose residues pick among equally likely outcomes. `uuids(k)` is the k-th generated
    transaction id. Amounts are integer cents; a date is its number of days before seeding. */
module Seed {
  import opened Js
  import opened Users

  datatype TxType = Income | Expense

  /** A category and its typical amount range, in whole currency units. */
  datatype Category = Category(name: string, min: nat, max: nat)

  const IncomeCategories: seq<Category> := [
    Category("salary", 5000, 8000),
    Category("freelance", 1000, 3000),
    Category("investments", 500, 2000),
    Category("other-income", 100, 1000)
  ]

  const ExpenseCategories: seq<Category> := [
    Category("housing", 1000, 2000),
    Category("transportation", 100, 500),
    Category("groceries", 200, 600),
    Category("utilities", 100, 300),
    Category("entertainment", 50, 200),
    Category("food", 50, 150),
    Category("shopping", 100, 500),
    Category("healthcare", 100, 1000),
    Category("education", 200, 1000),
    Category("travel", 500, 2000)
  ]

  /** `CATEGORIES[type]`: never empty, and every range is well ordered. */
  function Categories(t: TxType): (cs: seq<Category>)
    ensures |cs| > 0
    ensures forall c :: c in cs ==> c.min <= c.max
  {
    match t
    case Income => IncomeCategories
    case Expense => ExpenseCategories
  }

  /** `getRandomAmount(min, max)` in cents: one of the `(max - min) * 100 + 1` two-decimal
      values from `min` to `max` (rounding to two decimals can reach `max` itself). */
  function RandomAmount(min: nat, max: nat, draw: nat): (cents: nat)
    requires min <= max
    ensures min * 100 <= cents <= max * 100
  {
    min * 100 + draw % ((max - min) * 100 + 1)
  }

  /** Every two-decimal value of the range is drawn by some draw. */
  lemma RandomAmountReaches(min: nat, max: nat, cents: nat)
    requires min <= max && min * 100 <= cents <= max * 100
    ensures RandomAmount(min, max, cents - min * 100) == cents
  {
  }

  /** The category and amount `getRandomCategory` returns. */
  datatype Pick = Pick(category: string, amount: nat)

  /** The amount lies within the range of a category of type `t` that has this name. */
  ghost predicate InRange(t: TxType, category: string, amount: nat) {
    exists c :: c in Categories(t) && c.name == category && c.min * 100 <= amount <= c.max * 100
  }

  /** `getRandomCategory(type)`: a category of the type, with an amount within its range. */
  function RandomCategory(t: TxType, indexDraw: nat, amountDraw: nat): (p: Pick)
    ensures InRange(t, p.category, p.amount)
  {
    var cs := Categories(t);
    var c := cs[indexDraw % |cs|];
    Pick(c.name, RandomAmount(c.min, c.max, amountDraw))
  }

  /** `Math.random() < 0.4 ? "INCOME" : "EXPENSE"`: two of five equally likely residues are income. */
  function TypeOf(draw: nat): TxType {
    if draw % 5 < 2 then Income else Expense
  }

  /** Every block of five consecutive residues holds exactly two income draws: a 40% share. */
  lemma IncomeShare(d: nat)
    ensures TypeOf(5 * d) == Income && TypeOf(5 * d + 1) == Income
    ensures TypeOf(5 * d + 2) == Expense && TypeOf(5 * d + 3) == Expense && TypeOf(5 * d + 4) == Expense
  {
  }

  /** `Math.floor(Math.random() * 3) + 1`. */
  function PerDay(draw: nat): (n: nat)
    ensures 1 <= n <= 3
  {
    draw % 3 + 1
  }

  datatype Transaction = Transaction(id: string, txType: TxType, amount: nat, description: string,
                                     daysAgo: nat, category: string, status: string,
                                     userId: string, accountId: string, createdAt: nat, updatedAt: nat)

  /** The description `${type === "INCOME" ? "Received" : "Paid for"} ${category}`. */
  function Description(t: TxType, category: string): (d: string)
    ensures t == Income ==> d == "Received " + category
    ensures t == Expense ==> d == "Paid for " + category
  {
    (if t == Income then "Received" else "Paid for") + " " + category
  }

  /** A description names its type and category unambiguously: transactions of different
      kinds or categories never share a description. */
  lemma DescriptionInjective(t1: TxType, c1: string, t2: TxType, c2: string)
    requires Description(t1, c1) == Description(t2, c2)
    ensures t1 == t2 && c1 == c2
  {
    var d := Description(t1, c1);
    assert d[0] == (if t1 == Income then 'R' else 'P');
    assert d[0] == (if t2 == Income then 'R' else 'P');
    var n := if t1 == Income then |"Received "| else |"Paid for "|;
    assert c1 == d[n..] == c2;
  }

  /** A generated transaction: amount in its category's range, the matching description,
      status "COMPLETED", the given user and account, creation and update at its date,
      and a date within the 91 seeded days. */
  ghost predicate WellFormed(tx: Transaction, userId: string, accountId: string) {
    && InRange(tx.txType, tx.category, tx.amount)
    && tx.description == Description(tx.txType, tx.category)
    && tx.status == "COMPLETED"
    && tx.userId == userId && tx.accountId == accountId
    && tx.createdAt == tx.daysAgo && tx.updatedAt == tx.daysAgo
    && tx.daysAgo <= 90
  }

  /** The number of transactions dated `day` days before seeding. */
  function CountOnDay(txs: seq<Transaction>, day: nat): nat {
    if txs == [] then 0
    else CountOnDay(txs[..|txs| - 1], day) + (if txs[|txs| - 1].daysAgo == day then 1 else 0)
  }

  /** The transaction's effect on the balance. */
  function Signed(tx: Transaction): int {
    if tx.txType == Income then tx.amount as int else -(tx.amount as int)
  }

  /** The net balance of a list of transactions, accumulated in list order. */
  function Balance(txs: seq<Transaction>): int {
    if txs == [] then 0 else Balance(txs[..|txs| - 1]) + Signed(txs[|txs| - 1])
  }

  /** The total amount of the transactions of one type. */
  function SumOf(txs: seq<Transaction>, t: TxType): nat {
    if txs == [] then 0
    else if txs[0].txType == t then txs[0].amount + SumOf(txs[1..], t)
    else SumOf(txs[1..], t)
  }

  /** The net balance is the income total minus the expense total. */
  lemma {:induction false} BalanceIsIncomeMinusExpense(txs: seq<Transaction>)
    ensures Balance(txs) == SumOf(txs, Income) - SumOf(txs, Expense)
  {
    if txs != [] {
      var init := txs[..|txs| - 1];
      var last := txs[|txs| - 1];
      BalanceIsIncomeMinusExpense(init);
      SumOfAppend(init, last, Income);
      SumOfAppend(init, last, Expense);
      assert init + [last] == txs;
    }
  }

  lemma {:induction false} SumOfAppend(txs: seq<Transaction>, tx: Transaction, t: TxType)
    ensures SumOf(txs + [tx], t) == SumOf(txs, t) + (if tx.txType == t then tx.amount else 0)
  {
    if txs == [] {
      assert [] + [tx] == [tx];
    } else {
      assert (txs + [tx])[1..] == txs[1..] + [tx];
      SumOfAppend(txs[1..], tx, t);
    }
  }

  /** What the generation loop produces: between 91 and 273 well-formed transactions, dated
      in non-decreasing order (most days ago first), one to three on each of the 91 days. */
  ghost predicate Generated(txs: seq<Transaction>, userId: string, accountId: string) {
    && 91 <= |txs| <= 273
    && (forall k :: 0 <= k < |txs| ==> WellFormed(txs[k], userId, accountId))
    && (forall k, l :: 0 <= k < l < |txs| ==> txs[k].daysAgo >= txs[l].daysAgo)
    && (forall d: nat :: d <= 90 ==> 1 <= CountOnDay(txs, d) <= 3)
  }

  /** The transaction record built for one pick on the day `i` days before seeding. */
  function NewTransaction(id: string, t: TxType, pick: Pick, i: nat, userId: string, accountId: string): (tx: Transaction)
    requires i <= 90 && InRange(t, pick.category, pick.amount)
    ensures WellFormed(tx, userId, accountId) && tx.daysAgo == i
    ensures tx.id == id && tx.txType == t && tx.category == pick.category && tx.amount == pick.amount
  {
    Transaction(id, t, pick.amount, Description(t, pick.category), i,
                pick.category, "COMPLETED", userId, accountId, i, i)
  }

  /** The transaction was built from the three draws starting at `n` (its type, then its
      category and amount) and carries the `k`-th generated id. */
  ghost predicate FromDraws(tx: Transaction, draws: nat -> nat, uuids: nat -> string, n: nat, k: nat) {
    && tx.id == uuids(k)
    && tx.txType == TypeOf(draws(n))
    && Pick(tx.category, tx.amount) == RandomCategory(tx.txType, draws(n + 1), draws(n + 2))
  }

  /** The `k`-th transaction of a day's list, which continues `before`, is the one built from
      the draws of its place in the day: the day's count is draw `next0`, then three draws per
      record follow; the record carries the `k`-th generated id. */
  ghost predicate DrawnAt(txs: seq<Transaction>, before: seq<Transaction>, draws: nat -> nat, uuids: nat -> string,
                          next0: nat, k: nat)
    requires |before| <= k < |txs|
  {
    FromDraws(txs[k], draws, uuids, next0 + 1 + 3 * (k - |before|), k)
  }

  /** Appending the record built from the next triple of draws keeps every record of the day
      tied to its own draws. */
  lemma {:induction false} DrawnAtAppend(txs: seq<Transaction>, before: seq<Transaction>, tx: Transaction,
                                         draws: nat -> nat, uuids: nat -> string, next0: nat, n: nat)
    requires |before| <= |txs| && n == next0 + 1 + 3 * (|txs| - |before|)
    requires forall k :: |before| <= k < |txs| ==> DrawnAt(txs, before, draws, uuids, next0, k)
    requires FromDraws(tx, draws, uuids, n, |txs|)
    ensures forall k :: |before| <= k < |txs| + 1 ==> DrawnAt(txs + [tx], before, draws, uuids, next0, k)
  {
    forall k | |before| <= k < |txs| + 1
      ensures DrawnAt(txs + [tx], before, draws, uuids, next0, k)
    {
      if k < |txs| {
        assert DrawnAt(txs, before, draws, uuids, next0, k);
        assert (txs + [tx])[k] == txs[k];
      } else {
        assert (txs + [tx])[k] == tx;
      }
    }
  }

  /** One pass of the inner loop's body: draw the type, then the category and amount, and
      build the record with the `k`-th generated id. */
  method DrawTransaction(draws: nat -> nat, uuids: nat -> string, userId: string, accountId: string,
                         i: nat, n: nat, k: nat) returns (tx: Transaction)
    requires i <= 90
    ensures FromDraws(tx, draws, uuids, n, k)
    ensures WellFormed(tx, userId, accountId) && tx.daysAgo == i
  {
    var t := TypeOf(draws(n));
    var pick := RandomCategory(t, draws(n + 1), draws(n + 2));
    tx := NewTransaction(uuids(k), t, pick, i, userId, accountId);
  }

  /** Appending one transaction adds it to the balance and to the count of its own day only. */
  lemma AppendOne(txs: seq<Transaction>, tx: Transaction)
    ensures Balance(txs + [tx]) == Balance(txs) + Signed(tx)
    ensures forall d: nat :: CountOnDay(txs + [tx], d) == CountOnDay(txs, d) + (if tx.daysAgo == d then 1 else 0)
  {
    assert (txs + [tx])[..|txs|] == txs;
  }

  /** The inner loop of `seedTransactions` for the day `i` days before seeding: one to three
      well-formed transactions of that day are appended, with the running balance. */
  method GenerateDay(draws: nat -> nat, uuids: nat -> string, userId: string, accountId: string,
                     i: nat, next0: nat, before: seq<Transaction>, total0: int)
    returns (txs: seq<Transaction>, totalBalance: int, next: nat)
    requires i <= 90 && total0 == Balance(before)
    ensures |before| + 1 <= |txs| <= |before| + 3
    ensures txs[..|before|] == before
    ensures |txs| == |before| + PerDay(draws(next0)) && next == next0 + 1 + 3 * (|txs| - |before|)
    ensures forall k :: |before| <= k < |txs| ==> DrawnAt(txs, before, draws, uuids, next0, k)
    ensures forall k :: |before| <= k < |txs| ==> WellFormed(txs[k], userId, accountId) && txs[k].daysAgo == i
    ensures forall d: nat :: d != i ==> CountOnDay(txs, d) == CountOnDay(before, d)
    ensures CountOnDay(txs, i) == CountOnDay(before, i) + (|txs| - |before|)
    ensures totalBalance == Balance(txs)
  {
    var perDay := PerDay(draws(next0));
    next := next0 + 1;
    txs, totalBalance := before, total0;
    var j := 0;
    while j < perDay
      invariant 0 <= j <= perDay
      invariant |txs| == |before| + j && next == next0 + 1 + 3 * j
      invariant forall k :: |before| <= k < |txs| ==> DrawnAt(txs, before, draws, uuids, next0, k)
      invariant forall k :: 0 <= k < |before| ==> txs[k] == before[k]
      invariant forall k :: |before| <= k < |txs| ==> WellFormed(txs[k], userId, accountId) && txs[k].daysAgo == i
      invariant forall d: nat :: d != i ==> CountOnDay(txs, d) == CountOnDay(before, d)
      invariant CountOnDay(txs, i) == CountOnDay(before, i) + j
      invariant totalBalance == Balance(txs)
    {
      var tx := DrawTransaction(draws, uuids, userId, accountId, i, next, |txs|);
      DrawnAtAppend(txs, before, tx, draws, uuids, next0, next);
      next := next + 3;
      totalBalance := totalBalance + Signed(tx);
      AppendOne(txs, tx);
      txs := txs + [tx];
      j := j + 1;
    }
    assert j == perDay;
    assert txs[..|before|] == before;
  }

  /** The nested generation loops of `seedTransactions`: days from 90 down to 0. */
  method GenerateTransactions(draws: nat -> nat, uuids: nat -> string, userId: string, accountId: string)
    returns (txs: seq<Transaction>, totalBalance: int)
    ensures Generated(txs, userId, accountId)
    ensures totalBalance == Balance(txs)
  {
    txs, totalBalance := [], 0;
    var next: nat := 0;  // index of the next call of Math.random()
    var i := 90;
    while i >= 0
      invariant -1 <= i <= 90
      invariant 90 - i <= |txs| <= 3 * (90 - i)
      invariant forall k :: 0 <= k < |txs| ==> WellFormed(txs[k], userId, accountId) && txs[k].daysAgo > i
      invariant forall k, l :: 0 <= k < l < |txs| ==> txs[k].daysAgo >= txs[l].daysAgo
      invariant forall d: nat :: i < d <= 90 ==> 1 <= CountOnDay(txs, d) <= 3
      invariant forall d: nat :: d <= i ==> CountOnDay(txs, d) == 0
      invariant totalBalance == Balance(txs)
    {
      ghost var before := txs;
      txs, totalBalance, next := GenerateDay(draws, uuids, userId, accountId, i, next, txs, totalBalance);
      assert forall k :: 0 <= k < |before| ==> txs[k] == before[k] by {
        assert txs[..|before|] == before;
      }
      DayOrdered(before, txs, i);
      i := i - 1;
    }
  }

  /** Appending transactions of day `i` after transactions of earlier days keeps the list
      ordered from the most days ago to the fewest. */
  lemma DayOrdered(before: seq<Transaction>, txs: seq<Transaction>, i: nat)
    requires |before| <= |txs| && forall k :: 0 <= k < |before| ==> txs[k] == before[k]
    requires forall k :: 0 <= k < |before| ==> before[k].daysAgo > i
    requires forall k, l :: 0 <= k < l < |before| ==> before[k].daysAgo >= before[l].daysAgo
    requires forall k :: |before| <= k < |txs| ==> txs[k].daysAgo == i
    ensures forall k, l :: 0 <= k < l < |txs| ==> txs[k].daysAgo >= txs[l].daysAgo
  {
  }

  /** An account row; the balance is in cents. */
  datatype Account = Account(id: string, name: string, balance: int, color: string, isDefault: bool, userId: string)

  /** The account created when the user has none. */
  function DefaultAccount(id: string, userId: string): (a: Account)
    ensures a.id == id && a.userId == userId && a.isDefault
    ensures a.name == "Default Account" && a.balance == 0 && a.color == "#3b82f6"
  {
    Account(id, "Default Account", 0, "#3b82f6", true, userId)
  }

  /** The position of the user's first account in table order, or `|accounts|` when there is none. */
  function FirstAccountIndex(accounts: seq<Account>, userId: string): (k: nat)
    ensures k <= |accounts|
    ensures k < |accounts| ==> accounts[k].userId == userId
    ensures forall j :: 0 <= j < k ==> accounts[j].userId != userId
  {
    if accounts == [] || accounts[0].userId == userId then 0
    else 1 + FirstAccountIndex(accounts[1..], userId)
  }

  /** `account.findFirst({ where: { userId } })`: the user's first account in table order. */
  function FirstAccountOf(accounts: seq<Account>, userId: string): (r: Option<Account>)
    ensures r.None? <==> forall a :: a in accounts ==> a.userId != userId
    ensures r.Some? ==> r.value.userId == userId && r.value == accounts[FirstAccountIndex(accounts, userId)]
  {
    var k := FirstAccountIndex(accounts, userId);
    if k < |accounts| then Some(accounts[k]) else None
  }

  /** The account seeded for `userId`: its first account, or a new default one. */
  function SeedAccount(accounts: seq<Account>, userId: string, freshId: string): (a: Account)
    ensures a.userId == userId
    ensures FirstAccountOf(accounts, userId).Some? ==> a in accounts && a == FirstAccountOf(accounts, userId).value
    ensures FirstAccountOf(accounts, userId).None? ==> a == DefaultAccount(freshId, userId)
  {
    match FirstAccountOf(accounts, userId)
    case Some(a) => a
    case None => DefaultAccount(freshId, userId)
  }

  /** The account table once the seeded account is sure to exist. */
  function EnsureAccount(accounts: seq<Account>, userId: string, freshId: string): (r: seq<Account>)
    ensures SeedAccount(accounts, userId, freshId) in r
    ensures FirstAccountOf(accounts, userId).Some? ==> r == accounts
    ensures FirstAccountOf(accounts, userId).None? ==> r == accounts + [DefaultAccount(freshId, userId)]
  {
    if FirstAccountOf(accounts, userId).None? then accounts + [DefaultAccount(freshId, userId)] else accounts
  }

  /** `account.update({ where: { id }, data: { balance } })`. */
  function SetBalance(accounts: seq<Account>, id: string, balance: int): (r: seq<Account>)
    ensures |r| == |accounts|
    ensures forall k :: 0 <= k < |r| ==>
      r[k] == if accounts[k].id == id then accounts[k].(balance := balance) else accounts[k]
  {
    seq(|accounts|, k requires 0 <= k < |accounts| =>
      if accounts[k].id == id then accounts[k].(balance := balance) else accounts[k])
  }

  /** The transactions of one account, in table order. */
  function OfAccount(txs: seq<Transaction>, accountId: string): (r: seq<Transaction>)
    ensures forall t :: t in r <==> t in txs && t.accountId == accountId
  {
    if txs == [] then []
    else (if txs[0].accountId == accountId then [txs[0]] else []) + OfAccount(txs[1..], accountId)
  }

  /** `transaction.deleteMany({ where: { accountId } })`: every other transaction, in table order. */
  function WithoutAccount(txs: seq<Transaction>, accountId: string): (r: seq<Transaction>)
    ensures forall t :: t in r <==> t in txs && t.accountId != accountId
  {
    if txs == [] then []
    else (if txs[0].accountId != accountId then [txs[0]] else []) + WithoutAccount(txs[1..], accountId)
  }

  lemma {:induction false} OfAccountAppend(a: seq<Transaction>, b: seq<Transaction>, accountId: string)
    ensures OfAccount(a + b, accountId) == OfAccount(a, accountId) + OfAccount(b, accountId)
  {
    if a == [] {
      assert a + b == b;
    } else {
      assert (a + b)[1..] == a[1..] + b;
      OfAccountAppend(a[1..], b, accountId);
    }
  }

  lemma {:induction false} OfAccountAll(txs: seq<Transaction>, accountId: string)
    requires forall k :: 0 <= k < |txs| ==> txs[k].accountId == accountId
    ensures OfAccount(txs, accountId) == txs
  {
    if txs != [] {
      OfAccountAll(txs[1..], accountId);
    }
  }

  lemma {:induction false} OfAccountWithout(txs: seq<Transaction>, accountId: string, other: string)
    ensures OfAccount(WithoutAccount(txs, accountId), other) ==
      if other == accountId then [] else OfAccount(txs, other)
  {
    if txs != [] {
      var head := if txs[0].accountId != accountId then [txs[0]] else [];
      OfAccountWithout(txs[1..], accountId, other);
      OfAccountAppend(head, WithoutAccount(txs[1..], accountId), other);
    }
  }

  /** Replacing an account's transactions by a list that belongs to it: the account's
      transactions become exactly that list, and every other account keeps its own. */
  lemma ReplaceAccountTransactions(txs: seq<Transaction>, replacement: seq<Transaction>, accountId: string, other: string)
    requires forall k :: 0 <= k < |replacement| ==> replacement[k].accountId == accountId
    ensures OfAccount(WithoutAccount(txs, accountId) + replacement, accountId) == replacement
    ensures other != accountId ==>
      OfAccount(WithoutAccount(txs, accountId) + replacement, other) == OfAccount(txs, other)
  {
    OfAccountAppend(WithoutAccount(txs, accountId), replacement, accountId);
    OfAccountAppend(WithoutAccount(txs, accountId), replacement, other);
    OfAccountWithout(txs, accountId, accountId);
    OfAccountWithout(txs, accountId, other);
    OfAccountAll(replacement, accountId);
    if other != accountId {
      OfAccountNone(replacement, other);
    }
  }

  lemma {:induction false} OfAccountNone(txs: seq<Transaction>, accountId: string)
    requires forall k :: 0 <= k < |txs| ==> txs[k].accountId != accountId
    ensures OfAccount(txs, accountId) == []
  {
    if txs != [] {
      OfAccountNone(txs[1..], accountId);
    }
  }

  /** The commit of `seedTransactions` for the account `SeedAccount(accounts, userId, freshId)`:
      afterwards the account's transactions are exactly the seeded list, its balance is the
      list's net total, and every other account and every other account's transactions are as
      they were. */
  lemma SeedCommit(accounts: seq<Account>, txs: seq<Transaction>, userId: string, freshId: string,
                   seeded: seq<Transaction>)
    requires forall k :: 0 <= k < |seeded| ==> seeded[k].accountId == SeedAccount(accounts, userId, freshId).id
    requires forall a :: a in accounts ==> a.id != freshId
    ensures var id := SeedAccount(accounts, userId, freshId).id;
      var txsAfter := WithoutAccount(txs, id) + seeded;
      var accountsAfter := SetBalance(EnsureAccount(accounts, userId, freshId), id, Balance(seeded));
      && OfAccount(txsAfter, id) == seeded
      && (forall other :: other != id ==> OfAccount(txsAfter, other) == OfAccount(txs, other))
      && SeedAccount(accounts, userId, freshId).(balance := Balance(seeded)) in accountsAfter
      && (forall a :: a in accountsAfter && a.id == id ==> a.balance == Balance(seeded))
      && (forall k :: 0 <= k < |accounts| && accounts[k].id != id ==> accountsAfter[k] == accounts[k])
  {
    var account := SeedAccount(accounts, userId, freshId);
    var id := account.id;
    forall other ensures other != id ==> OfAccount(WithoutAccount(txs, id) + seeded, other) == OfAccount(txs, other) {
      ReplaceAccountTransactions(txs, seeded, id, other);
    }
    ReplaceAccountTransactions(txs, seeded, id, id);
    var ensured := EnsureAccount(accounts, userId, freshId);
    var after := SetBalance(ensured, id, Balance(seeded));
    var k :| 0 <= k < |ensured| && ensured[k] == account;
    assert after[k] == account.(balance := Balance(seeded));
    forall j | 0 <= j < |accounts| && accounts[j].id != id ensures after[j] == accounts[j] {
      assert ensured[j] == accounts[j];
    }
  }

  /** What `seedTransactions` returns. */
  datatype SeedResult = Seeded(message: string) | SeedFailed(error: string)

  const NoUsersMessage: string := "No users found in the database. Please create a user first."

  /** The database tables the seeding reads and writes, updated in place. */
  class Database {
    var users: seq<User>
    var accounts: seq<Account>
    var transactions: seq<Transaction>

    constructor (users: seq<User>, accounts: seq<Account>, transactions: seq<Transaction>)
      ensures this.users == users && this.accounts == accounts && this.transactions == transactions
    {
      this.users, this.accounts, this.transactions := users, accounts, transactions;
    }

    /** `seedTransactions()`. With no users nothing is written. Otherwise the first user's
        first account (or a new default account, given the id `accountUuid`) has its old
        transactions deleted, the generated ones inserted, and their net total set as its
        balance (see SeedCommit for what that leaves in the tables). */
    method SeedTransactions(draws: nat -> nat, accountUuid: string, uuids: nat -> string)
      returns (r: SeedResult, ghost seeded: seq<Transaction>)
      requires forall a :: a in accounts ==> a.id != accountUuid
      modifies this
      ensures users == old(users)
      ensures old(users) == [] ==>
        r == SeedFailed(NoUsersMessage) && accounts == old(accounts) && transactions == old(transactions)
      ensures old(users) != [] ==>
        var userId := old(users)[0].id;
        var account := SeedAccount(old(accounts), userId, accountUuid);
        && Generated(seeded, userId, account.id)
        && transactions == WithoutAccount(old(transactions), account.id) + seeded
        && accounts == SetBalance(EnsureAccount(old(accounts), userId, accountUuid), account.id, Balance(seeded))
        && r == Seeded("Created " + NatToString(|seeded|) + " transactions for account " + account.id)
    {
      if |users| == 0 {
        r, seeded := SeedFailed(NoUsersMessage), [];
        return;
      }
      var userId := users[0].id;
      var account := FirstAccountOf(accounts, userId);
      if account.None? {
        var created := DefaultAccount(accountUuid, userId);
        accounts := accounts + [created];
        account := Some(created);
      }
      var accountId := account.value.id;
      var txs, totalBalance := GenerateTransactions(draws, uuids, userId, accountId);

      // The database transaction: clear, insert, update the balance.
      transactions := WithoutAccount(transactions, accountId);
      transactions := transactions + txs;
      accounts := SetBalance(accounts, accountId, totalBalance);

      seeded := txs;
      r := Seeded("Created " + NatToString(|txs|) + " transactions for account " + accountId);
    }
  }
}
