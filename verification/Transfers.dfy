/** What executing one entry does to each account and to the stored result, command by command. */
module Transfers {
  import opened Quorum
  import opened Text
  import opened Bank
  import opened NodeSpec
  import opened Cluster
  import opened Invariant
  import opened Steps
  import opened Safety
  import Conservation

  /** An ordinary transfer the sender can pay: two accounts, no negative amount, sums within 32 bits. */
  predicate Payable(m: map<string, int>, cmd: Command) {
    && cmd.kind == TRANSFER && cmd.sender != cmd.receiver
    && 0 <= cmd.amount <= Balance(m, cmd.sender) <= Conservation.INT_MAX
    && 0 <= Balance(m, cmd.receiver) + cmd.amount <= Conservation.INT_MAX
  }

  predicate SameAccount(m: map<string, int>, m': map<string, int>, id: string) {
    (id in m' <==> id in m) && (id in m ==> m'[id] == m[id])
  }

  /** The sender pays, the receiver gains, nobody else notices. */
  ghost predicate Paid(m: map<string, int>, m': map<string, int>, cmd: Command) {
    && cmd.sender in m' && m'[cmd.sender] == Balance(m, cmd.sender) - cmd.amount
    && cmd.receiver in m' && m'[cmd.receiver] == Balance(m, cmd.receiver) + cmd.amount
    && forall id :: id != cmd.sender && id != cmd.receiver ==> SameAccount(m, m', id)
  }

  /** The one result that changes is the command's own. */
  predicate Records(b: Bank, b': Bank, cmd: Command, index: nat, message: string) {
    b'.results == b.results[cmd.requestId := Outcome(message, index)]
  }

  /** What executing a command at an index must do. */
  ghost predicate Executes(b: Bank, b': Bank, cmd: Command, index: nat) {
    && (Payable(b.accounts, cmd) ==> Paid(b.accounts, b'.accounts, cmd) && Records(b, b', cmd, index, "Success"))
    && (cmd.kind == TRANSFER && Balance(b.accounts, cmd.sender) < cmd.amount ==>
          b'.accounts == b.accounts && Records(b, b', cmd, index, "Insufficient Funds"))
    && (cmd.kind == GET_BALANCE ==>
          && b'.accounts == b.accounts
          && Records(b, b', cmd, index, "Balance: " + Decimal(Balance(b.accounts, cmd.sender))))
  }

  lemma ApplyExecutes(b: Bank, e: Entry)
    ensures Executes(b, Apply(b, e), e.cmd, e.index)
  {
  }

  /** In every run, executing a fetched entry does that for the entry of the node's log right after
      lastApplied, at its index, and lastApplied moves to it. */
  lemma ExecutedEntry(ss: seq<State>, genesis: Bank, k: nat, i: NodeId)
    requires Run(ss, genesis) && k < |ss| && i in ss[k].ns && ss[k].ns[i].batch != []
    ensures var s := ss[k]; var n, n' := s.ns[i], Do(s, Execute(i)).ns[i];
            && n.applied < |n.log| && n.log[n.applied].index == n.applied + 1 == n'.applied
            && Executes(n.bank, n'.bank, n.log[n.applied].cmd, n'.applied)
            && n'.log == n.log && n'.commit == n.commit && n'.term == n.term
  {
    var s, n := ss[k], ss[k].ns[i];
    RunOk(ss, genesis, k);
    assert NodeOk(s.c, s.h, n, genesis);
    IndexOf(s.c, s.h, n.log, n.applied);
    ApplyExecutes(n.bank, n.batch[0]);
  }
}
