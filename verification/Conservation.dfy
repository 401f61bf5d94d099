/** Money: the total is conserved and no 32-bit balance overflows, and exactly when a command breaks this. */
module Conservation {
  import opened Text
  import opened Bank

  const INT_MAX: int := 0x7FFF_FFFF
  const GENESIS_ACCOUNTS: nat := 9000
  const GENESIS_BALANCE: int := 100000
  const GENESIS_TOTAL: int := 900000000

  // ---------- the total of all balances ----------

  ghost function Total(m: map<string, int>): int {
    if m == map[] then 0 else var k :| k in m; m[k] + Total(m - {k})
  }

  /** The total does not depend on the order of summation. */
  lemma {:induction false} TotalWithout(m: map<string, int>, k: string)
    requires k in m
    ensures Total(m) == m[k] + Total(m - {k})
    decreases |m|
  {
    var j :| j in m && Total(m) == m[j] + Total(m - {j});
    if j != k {
      TotalWithout(m - {j}, k);
      TotalWithout(m - {k}, j);
      assert m - {j} - {k} == m - {k} - {j};
    }
  }

  lemma TotalPut(m: map<string, int>, k: string, v: int)
    ensures Total(m[k := v]) == Total(m) - Balance(m, k) + v
  {
    TotalWithout(m[k := v], k);
    assert m[k := v] - {k} == m - {k};
    if k in m {
      TotalWithout(m, k);
    } else {
      assert m - {k} == m;
    }
  }

  predicate NonNegative(m: map<string, int>) {
    forall k :: k in m ==> m[k] >= 0
  }

  lemma {:induction false} TotalNonNegative(m: map<string, int>)
    requires NonNegative(m)
    ensures Total(m) >= 0
    decreases |m|
  {
    if m != map[] {
      var k :| k in m && Total(m) == m[k] + Total(m - {k});
      TotalNonNegative(m - {k});
    }
  }

  /** Two different accounts together hold no more than the total. */
  lemma PairBelowTotal(m: map<string, int>, a: string, b: string)
    requires NonNegative(m) && a != b
    ensures Balance(m, a) + Balance(m, b) <= Total(m)
  {
  }

  // ---------- one command ----------

  /** A transfer of a non-negative amount between two accounts, or a read. */
  predicate Fair(cmd: Command) {
    cmd.kind == TRANSFER ==> cmd.amount >= 0 && cmd.sender != cmd.receiver
  }

  /** The accounts hold exactly `total`, each balance between 0 and it. */
  ghost predicate Sound(m: map<string, int>, total: int) {
    && Total(m) == total
    && forall k :: k in m ==> 0 <= m[k] <= total
  }

  lemma WrapExact(x: int)
    requires -INT_MAX - 1 <= x <= INT_MAX
    ensures Wrap32(x) == x
  {
  }

  /** On sound accounts a fair command computes without overflow, and NO_CHANGE never stands for a
      balance that was computed. */
  lemma FairDecision(m: map<string, int>, cmd: Command, total: int)
    requires Sound(m, total) && total <= INT_MAX && Fair(cmd) && cmd.amount <= INT_MAX
    ensures var (s, r, message) := Decide(m, cmd);
            if cmd.kind == TRANSFER && Balance(m, cmd.sender) >= cmd.amount
            then s == Balance(m, cmd.sender) - cmd.amount >= 0 && 0 <= r <= total &&
                 r == Balance(m, cmd.receiver) + cmd.amount
            else s == NO_CHANGE && r == NO_CHANGE
  {
    if cmd.kind == TRANSFER && Balance(m, cmd.sender) >= cmd.amount {
      PairBelowTotal(m, cmd.sender, cmd.receiver);
      TotalNonNegative(m);
      WrapExact(Balance(m, cmd.sender) - cmd.amount);
      WrapExact(Balance(m, cmd.receiver) + cmd.amount);
    }
  }

  lemma FairKeepsSound(b: Bank, e: Entry, total: int)
    requires Sound(b.accounts, total) && total <= INT_MAX && Fair(e.cmd) && e.cmd.amount <= INT_MAX
    ensures Sound(Apply(b, e).accounts, total)
  {
    var m := b.accounts;
    FairDecision(m, e.cmd, total);
    var (s, r, message) := Decide(m, e.cmd);
    if e.cmd.kind == TRANSFER && Balance(m, e.cmd.sender) >= e.cmd.amount {
      TotalPut(m, e.cmd.sender, s);
      TotalPut(m[e.cmd.sender := s], e.cmd.receiver, r);
    }
  }

  predicate FairLog(log: seq<Entry>) {
    forall k :: 0 <= k < |log| ==> Fair(log[k].cmd) && log[k].cmd.amount <= INT_MAX
  }

  /** Conservation with a real bound: from sound accounts, a log of fair commands keeps the total and
      keeps every balance between 0 and the total. Every prefix of such a log is such a log. */
  lemma {:induction false} LogConserves(b: Bank, log: seq<Entry>, total: int)
    requires Sound(b.accounts, total) && total <= INT_MAX && FairLog(log)
    ensures Sound(Fold(b, log).accounts, total)
  {
    if log != [] {
      var k := |log| - 1;
      LogConserves(b, log[..k], total);
      FairKeepsSound(Fold(b, log[..k]), log[k], total);
    }
  }

  // ---------- exactly when one command conserves the total ----------

  /** The two sums the source computes stay within a 32-bit int, where C++ defines them. */
  predicate Defined(m: map<string, int>, cmd: Command) {
    && -INT_MAX - 1 <= Balance(m, cmd.sender) - cmd.amount <= INT_MAX
    && -INT_MAX - 1 <= Balance(m, cmd.receiver) + cmd.amount <= INT_MAX
  }

  /** What a caller can check beforehand. */
  predicate Harmless(m: map<string, int>, cmd: Command) {
    || cmd.kind != TRANSFER
    || Balance(m, cmd.sender) < cmd.amount
    || cmd.amount == 0
    || (cmd.sender != cmd.receiver && Balance(m, cmd.receiver) + cmd.amount >= 0)
  }

  /** A command leaves the total as it was if and only if it is harmless: a funded transfer to oneself
      creates its amount, and a negative amount that would overdraw the receiver creates money too. */
  lemma ConservesIff(b: Bank, e: Entry)
    requires NonNegative(b.accounts) && Defined(b.accounts, e.cmd)
    ensures Total(Apply(b, e).accounts) == Total(b.accounts) <==> Harmless(b.accounts, e.cmd)
  {
    var m, cmd := b.accounts, e.cmd;
    if cmd.kind == TRANSFER && Balance(m, cmd.sender) >= cmd.amount {
      WrapExact(Balance(m, cmd.sender) - cmd.amount);
      WrapExact(Balance(m, cmd.receiver) + cmd.amount);
      var (s, r, message) := Decide(m, cmd);
      TotalPut(m, cmd.sender, s);
      TotalPut(m[cmd.sender := s], cmd.receiver, r);
    }
  }

  /** What a funded transfer to oneself does: the receiver's write wins, so its amount is created; with a
      negative amount larger than the balance there is no such write, and its opposite is created. */
  lemma SelfTransferCreatesMoney(b: Bank, e: Entry)
    requires NonNegative(b.accounts) && Defined(b.accounts, e.cmd)
    requires e.cmd.kind == TRANSFER && e.cmd.receiver == e.cmd.sender
    requires Balance(b.accounts, e.cmd.sender) >= e.cmd.amount
    ensures var amount := e.cmd.amount;
            Total(Apply(b, e).accounts) ==
            Total(b.accounts) + if Balance(b.accounts, e.cmd.sender) + amount >= 0 then amount else -amount
  {
    var m, cmd := b.accounts, e.cmd;
    WrapExact(Balance(m, cmd.sender) - cmd.amount);
    WrapExact(Balance(m, cmd.receiver) + cmd.amount);
    var (s, r, message) := Decide(m, cmd);
    TotalPut(m, cmd.sender, s);
    TotalPut(m[cmd.sender := s], cmd.receiver, r);
  }

  // ---------- genesis ----------

  function GenesisUpTo(n: nat): map<string, int> {
    if n == 0 then map[] else GenesisUpTo(n - 1)[Decimal(n) := GENESIS_BALANCE]
  }

  /** The accounts of genesis are those numbered 1 to n. */
  lemma {:induction false} GenesisIds(n: nat, id: string)
    ensures id in GenesisUpTo(n) <==> exists k: nat :: 1 <= k <= n && id == Decimal(k)
  {
    if n > 0 {
      GenesisIds(n - 1, id);
    }
  }

  lemma {:induction false} GenesisKeys(n: nat, k: nat)
    requires k > n
    ensures Decimal(k) !in GenesisUpTo(n)
  {
    if n > 0 {
      GenesisKeys(n - 1, k);
      if Decimal(k) == Decimal(n) {
        DecimalInjective(k, n);
      }
    }
  }

  lemma {:induction false} GenesisBalances(n: nat)
    ensures Total(GenesisUpTo(n)) == n * GENESIS_BALANCE
    ensures forall k :: k in GenesisUpTo(n) ==> GenesisUpTo(n)[k] == GENESIS_BALANCE
  {
    if n > 0 {
      GenesisBalances(n - 1);
      GenesisKeys(n - 1, n);
      TotalPut(GenesisUpTo(n - 1), Decimal(n), GENESIS_BALANCE);
    }
  }

  lemma GenesisSound()
    ensures Sound(GenesisUpTo(GENESIS_ACCOUNTS), GENESIS_TOTAL) && GENESIS_TOTAL <= INT_MAX
  {
    GenesisBalances(GENESIS_ACCOUNTS);
  }

  /** From genesis, every prefix of a fair log keeps 900,000,000 in all, and no balance leaves 0..900,000,000. */
  lemma GenesisConserved(log: seq<Entry>, results: map<string, Outcome>, j: nat)
    requires FairLog(log) && j <= |log|
    ensures Sound(Fold(Bank(GenesisUpTo(GENESIS_ACCOUNTS), results), log[..j]).accounts, GENESIS_TOTAL)
  {
    GenesisSound();
    LogConserves(Bank(GenesisUpTo(GENESIS_ACCOUNTS), results), log[..j], GENESIS_TOTAL);
  }
}
