/** The replicated state machine: account balances and stored request results. */
module Bank {
  import opened Text

  datatype Kind = GET_BALANCE | TRANSFER

  datatype Command = Command(requestId: string, kind: Kind, sender: string, receiver: string, amount: int)

  /** An entry of the replicated log. `index` is the 1-based position the leader assigned. */
  datatype Entry = Entry(term: nat, index: nat, cmd: Command)

  /** What reading a log record that is not stored yields: term 0 and otherwise default fields. */
  const MISSING: Entry := Entry(0, 0, Command("", GET_BALANCE, "", "", 0))

  /** The value kept under `req:<id>`. */
  datatype Outcome = Outcome(message: string, executedAt: nat)

  datatype Bank = Bank(accounts: map<string, int>, results: map<string, Outcome>)

  const NO_CHANGE: int := -1

  /** Two's complement wrap-around of a 32-bit int. */
  function Wrap32(x: int): (r: int)
    ensures -0x8000_0000 <= r < 0x8000_0000 && (x - r) % 0x1_0000_0000 == 0
  {
    (x + 0x8000_0000) % 0x1_0000_0000 - 0x8000_0000
  }

  /** An account that was never written has balance 0. */
  function Balance(accounts: map<string, int>, id: string): int {
    if id in accounts then accounts[id] else 0
  }

  /** What the executor computes for one command: new balances, with NO_CHANGE where nothing is
      to be written, and the result message. */
  function Decide(accounts: map<string, int>, cmd: Command): (int, int, string) {
    match cmd.kind
    case TRANSFER =>
      if Balance(accounts, cmd.sender) >= cmd.amount then
        (Wrap32(Balance(accounts, cmd.sender) - cmd.amount),
         Wrap32(Balance(accounts, cmd.receiver) + cmd.amount),
         "Success")
      else
        (NO_CHANGE, NO_CHANGE, "Insufficient Funds")
    case GET_BALANCE =>
      (NO_CHANGE, NO_CHANGE, "Balance: " + Decimal(Balance(accounts, cmd.sender)))
  }

  /** The account writes of applyTransaction, in its order: the receiver's write comes last. */
  function Written(accounts: map<string, int>, cmd: Command, senderNew: int, receiverNew: int): map<string, int> {
    var a := if senderNew >= 0 then accounts[cmd.sender := senderNew] else accounts;
    if receiverNew >= 0 then a[cmd.receiver := receiverNew] else a
  }

  function Apply(b: Bank, e: Entry): Bank {
    var (senderNew, receiverNew, message) := Decide(b.accounts, e.cmd);
    Bank(Written(b.accounts, e.cmd, senderNew, receiverNew),
         b.results[e.cmd.requestId := Outcome(message, e.index)])
  }

  /** The reference meaning of a log: apply its entries from left to right. */
  function Fold(b: Bank, log: seq<Entry>): Bank {
    if log == [] then b else Apply(Fold(b, log[..|log| - 1]), log[|log| - 1])
  }

  lemma FoldStep(b: Bank, log: seq<Entry>, k: nat)
    requires k < |log|
    ensures Fold(b, log[..k + 1]) == Apply(Fold(b, log[..k]), log[k])
  {
    assert log[..k + 1][..k] == log[..k];
  }

  /** Folding a log equals folding any prefix and then the rest: batch boundaries do not matter. */
  lemma {:induction false} FoldSplit(b: Bank, x: seq<Entry>, y: seq<Entry>)
    ensures Fold(b, x + y) == Fold(Fold(b, x), y)
    decreases |y|
  {
    if y == [] {
      assert x + y == x;
    } else {
      var k := |y| - 1;
      FoldSplit(b, x, y[..k]);
      assert (x + y)[..|x + y| - 1] == x + y[..k];
    }
  }
}
