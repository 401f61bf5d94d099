/** The text form of a snapshot: KEY, newline, VALUE, newline for each record, in key order. */
module SnapshotText {
  import opened Text

  const NL: char := '\n'

  type Record = (string, string)

  function Print(rs: seq<Record>): string {
    if rs == [] then "" else rs[0].0 + [NL] + rs[0].1 + [NL] + Print(rs[1..])
  }

  /** The length of the first line. */
  function LineEnd(s: string): (i: nat)
    ensures i <= |s| && NL !in s[..i] && (i < |s| ==> s[i] == NL)
  {
    if s == [] || s[0] == NL then 0
    else
      var i := 1 + LineEnd(s[1..]);
      assert s[..i] == [s[0]] + s[1..][..i - 1];
      i
  }

  /** The text after the first line and its newline. */
  function AfterLine(s: string): (t: string)
    ensures s != [] ==> |t| < |s|
  {
    if LineEnd(s) < |s| then s[LineEnd(s) + 1..] else ""
  }

  /** The lines std::getline would yield one after the other; no empty line after a final newline. */
  function Lines(s: string): seq<string>
    decreases |s|
  {
    if s == [] then [] else [s[..LineEnd(s)]] + Lines(AfterLine(s))
  }

  /** Lines taken two by two; an odd last line is dropped. */
  function Pairs(ls: seq<string>): seq<Record>
    decreases |ls|
  {
    if |ls| < 2 then [] else [(ls[0], ls[1])] + Pairs(ls[2..])
  }

  function Parse(s: string): seq<Record> { Pairs(Lines(s)) }

  // ---------- round trip ----------

  predicate Clean(r: Record) { NL !in r.0 && NL !in r.1 }

  predicate AllClean(rs: seq<Record>) {
    forall k :: 0 <= k < |rs| ==> Clean(rs[k])
  }

  lemma {:induction false} FirstLine(l: string, t: string)
    requires NL !in l
    ensures LineEnd(l + [NL] + t) == |l|
  {
    var s := l + [NL] + t;
    if l != [] {
      FirstLine(l[1..], t);
      assert s[1..] == l[1..] + [NL] + t;
    }
  }

  lemma LinesSplit(l: string, t: string)
    requires NL !in l
    ensures Lines(l + [NL] + t) == [l] + Lines(t)
  {
    var s := l + [NL] + t;
    FirstLine(l, t);
    assert s[..|l|] == l && s[|l| + 1..] == t;
  }

  lemma ParseOne(r: Record, rest: string, whole: string)
    requires Clean(r) && whole == r.0 + [NL] + (r.1 + [NL] + rest)
    ensures Parse(whole) == [r] + Parse(rest)
  {
    LinesSplit(r.0, r.1 + [NL] + rest);
    LinesSplit(r.1, rest);
    assert ([r.0] + ([r.1] + Lines(rest)))[2..] == Lines(rest);
  }

  lemma PrintOne(rs: seq<Record>, t: string)
    requires rs != []
    ensures Print(rs) + t == rs[0].0 + [NL] + (rs[0].1 + [NL] + (Print(rs[1..]) + t))
  {
  }

  lemma HeadTail<T>(x: seq<T>, y: seq<T>)
    requires x != []
    ensures [x[0]] + (x[1..] + y) == x + y
  {
  }

  /** Clean records at the front of a text are read back as they are, whatever follows. */
  lemma {:induction false} ParsePrefix(rs: seq<Record>, t: string, whole: string)
    requires AllClean(rs) && whole == Print(rs) + t
    ensures Parse(whole) == rs + Parse(t)
    decreases |rs|
  {
    if rs == [] {
      assert whole == t;
      assert rs + Parse(t) == Parse(t);
    } else {
      var rest := Print(rs[1..]) + t;
      PrintOne(rs, t);
      ParseOne(rs[0], rest, whole);
      ParsePrefix(rs[1..], t, rest);
      HeadTail(rs, Parse(t));
    }
  }

  lemma {:induction false} LinesClean(s: string)
    ensures forall k :: 0 <= k < |Lines(s)| ==> NL !in Lines(s)[k]
    decreases |s|
  {
    if s != [] {
      LinesClean(AfterLine(s));
    }
  }

  lemma {:induction false} PairsClean(ls: seq<string>)
    requires forall k :: 0 <= k < |ls| ==> NL !in ls[k]
    ensures AllClean(Pairs(ls))
    decreases |ls|
  {
    if |ls| >= 2 {
      PairsClean(ls[2..]);
    }
  }

  /** The round trip holds for exactly the newline-free records. A serialized CommandResult begins with
      the byte of newline, so request records never survive it. */
  lemma RoundTripIff(rs: seq<Record>)
    ensures Parse(Print(rs)) == rs <==> AllClean(rs)
  {
    LinesClean(Print(rs));
    PairsClean(Lines(Print(rs)));
    if AllClean(rs) {
      assert Print(rs) + "" == Print(rs);
      ParsePrefix(rs, "", Print(rs));
      assert rs + Parse("") == rs;
    }
  }

  // ---------- maps ----------

  /** Writing records one after the other. */
  function PutAll(m: map<string, string>, rs: seq<Record>): map<string, string>
    decreases |rs|
  {
    if rs == [] then m else PutAll(m[rs[0].0 := rs[0].1], rs[1..])
  }

  lemma {:induction false} PutAllSplit(m: map<string, string>, a: seq<Record>, b: seq<Record>)
    ensures PutAll(m, a + b) == PutAll(PutAll(m, a), b)
    decreases |a|
  {
    if a == [] {
      assert a + b == b;
    } else {
      PutAllSplit(m[a[0].0 := a[0].1], a[1..], b);
      assert (a + b)[1..] == a[1..] + b;
    }
  }

  function KeysOf(rs: seq<Record>): set<string> {
    if rs == [] then {} else {rs[0].0} + KeysOf(rs[1..])
  }

  predicate DrawnFrom(rs: seq<Record>, m: map<string, string>) {
    forall k :: 0 <= k < |rs| ==> rs[k].0 in m && m[rs[k].0] == rs[k].1
  }

  /** rs lists the records of m in some order. */
  predicate ListsMap(rs: seq<Record>, m: map<string, string>) {
    DrawnFrom(rs, m) && KeysOf(rs) == m.Keys
  }

  function Sub(m: map<string, string>, keys: set<string>): map<string, string> {
    map key | key in keys && key in m :: m[key]
  }

  lemma {:induction false} PutAllListed(m0: map<string, string>, rs: seq<Record>, m: map<string, string>)
    requires DrawnFrom(rs, m) && KeysOf(rs) <= m.Keys
    ensures PutAll(m0, rs) == m0 + Sub(m, KeysOf(rs))
    decreases |rs|
  {
    if rs == [] {
      assert m0 + Sub(m, KeysOf(rs)) == m0;
    } else {
      var m1 := m0[rs[0].0 := rs[0].1];
      PutAllListed(m1, rs[1..], m);
      assert m1 + Sub(m, KeysOf(rs[1..])) == m0 + Sub(m, KeysOf(rs));
    }
  }

  lemma PutAllOfMap(rs: seq<Record>, m: map<string, string>)
    requires ListsMap(rs, m)
    ensures PutAll(map[], rs) == m
  {
    PutAllListed(map[], rs, m);
    assert map[] + Sub(m, m.Keys) == m;
  }

  lemma ParseClean(t: string)
    ensures AllClean(Parse(t))
  {
    LinesClean(t);
    PairsClean(Lines(t));
  }

  predicate CleanMap(m: map<string, string>) {
    forall key :: key in m ==> NL !in key && NL !in m[key]
  }

  lemma {:induction false} PutAllClean(m: map<string, string>, rs: seq<Record>)
    requires CleanMap(m) && AllClean(rs)
    ensures CleanMap(PutAll(m, rs))
    decreases |rs|
  {
    if rs != [] {
      assert Clean(rs[0]);
      PutAllClean(m[rs[0].0 := rs[0].1], rs[1..]);
    }
  }

  /** A map comes back from its printed form, in whatever order it was listed, if and only if it is
      newline-free. */
  lemma MapRoundTrip(rs: seq<Record>, m: map<string, string>)
    requires ListsMap(rs, m)
    ensures PutAll(map[], Parse(Print(rs))) == m <==> CleanMap(m)
  {
    ParseClean(Print(rs));
    PutAllClean(map[], Parse(Print(rs)));
    if CleanMap(m) {
      RoundTripIff(rs);
      PutAllOfMap(rs, m);
    }
  }

  // ---------- accounts in a full dump ----------

  predicate StartsWith(s: string, prefix: string) {
    |prefix| <= |s| && s[..|prefix|] == prefix
  }

  const ACCT: string := "acct:"
  const REQ: string := "req:"

  /** The account records among all keys: what getBalance can see. */
  function Accounts(m: map<string, string>): map<string, string> {
    map key | key in m && StartsWith(key, ACCT) :: m[key]
  }

  lemma {:induction false} PutAllOver(m: map<string, string>, rs: seq<Record>)
    ensures PutAll(m, rs) == m + PutAll(map[], rs)
    decreases |rs|
  {
    if rs == [] {
      assert m + map[] == m;
    } else {
      var one := map[rs[0].0 := rs[0].1];
      PutAllOver(m[rs[0].0 := rs[0].1], rs[1..]);
      PutAllOver(one, rs[1..]);
      assert m[rs[0].0 := rs[0].1] + PutAll(map[], rs[1..]) == m + (one + PutAll(map[], rs[1..]));
      assert PutAll(map[], rs) == PutAll(one, rs[1..]);
    }
  }

  /** Every account record that w holds is one of m. */
  predicate Agreeing(w: map<string, string>, m: map<string, string>) {
    forall key :: key in w && StartsWith(key, ACCT) ==> key in m && m[key] == w[key]
  }

  lemma ParseBlocks(accts: seq<Record>, reqs: seq<Record>, m: map<string, string>)
    requires ListsMap(accts, m) && CleanMap(m)
    ensures PutAll(map[], Parse(Print(accts + reqs))) == m + PutAll(map[], Parse(Print(reqs)))
  {
    PrintSplit(accts, reqs);
    ParsePrefix(accts, Print(reqs), Print(accts + reqs));
    PutAllSplit(map[], accts, Parse(Print(reqs)));
    PutAllOfMap(accts, m);
    PutAllOver(m, Parse(Print(reqs)));
  }

  lemma OverAgrees(m: map<string, string>, w: map<string, string>)
    requires forall key :: key in m ==> StartsWith(key, ACCT)
    ensures Accounts(m + w) == m <==> Agreeing(w, m)
  {
    if Accounts(m + w) == m {
      forall key | key in w && StartsWith(key, ACCT) ensures key in m && m[key] == w[key] {
        assert key in Accounts(m + w) && Accounts(m + w)[key] == w[key];
      }
    }
  }

  /** A full dump restores the accounts, whatever bytes the request records hold, if and only if the
      accounts are newline-free and the request block, read on its own, writes no account otherwise: the
      accounts are printed first, so they stay aligned. */
  lemma AccountsSurvive(accts: seq<Record>, reqs: seq<Record>, m: map<string, string>)
    requires ListsMap(accts, m) && forall key :: key in m ==> StartsWith(key, ACCT)
    ensures Accounts(PutAll(map[], Parse(Print(accts + reqs)))) == m <==>
            CleanMap(m) && Agreeing(PutAll(map[], Parse(Print(reqs))), m)
  {
    var t := PutAll(map[], Parse(Print(accts + reqs)));
    ParseClean(Print(accts + reqs));
    PutAllClean(map[], Parse(Print(accts + reqs)));
    if Accounts(t) == m {
      forall key | key in m ensures NL !in key && NL !in m[key] {
        assert key in Accounts(t) && Accounts(t)[key] == t[key];
      }
    }
    if CleanMap(m) {
      ParseBlocks(accts, reqs, m);
      OverAgrees(m, PutAll(map[], Parse(Print(reqs))));
    }
  }

  predicate NoAccountLine(t: string) {
    forall k :: 0 <= k < |Lines(t)| ==> !StartsWith(Lines(t)[k], ACCT)
  }

  lemma {:induction false} PairsKeys(ls: seq<string>)
    requires forall k :: 0 <= k < |ls| ==> !StartsWith(ls[k], ACCT)
    ensures forall k :: 0 <= k < |Pairs(ls)| ==> !StartsWith(Pairs(ls)[k].0, ACCT)
    decreases |ls|
  {
    if |ls| >= 2 {
      PairsKeys(ls[2..]);
    }
  }

  lemma {:induction false} OtherKeys(m: map<string, string>, rs: seq<Record>)
    requires forall k :: 0 <= k < |rs| ==> !StartsWith(rs[k].0, ACCT)
    ensures Accounts(PutAll(m, rs)) == Accounts(m)
    decreases |rs|
  {
    if rs != [] {
      OtherKeys(m[rs[0].0 := rs[0].1], rs[1..]);
      assert Accounts(m[rs[0].0 := rs[0].1]) == Accounts(m);
    }
  }

  /** It writes no account at all if no line of it begins like an account key. */
  lemma NoLineNoAccount(t: string)
    requires NoAccountLine(t)
    ensures forall key :: key in PutAll(map[], Parse(t)) ==> !StartsWith(key, ACCT)
  {
    PairsKeys(Lines(t));
    OtherKeys(map[], Parse(t));
    forall key | key in PutAll(map[], Parse(t)) ensures !StartsWith(key, ACCT) {
      assert key !in Accounts(PutAll(map[], Parse(t)));
    }
  }

  lemma {:induction false} PrintSplit(a: seq<Record>, b: seq<Record>)
    ensures Print(a + b) == Print(a) + Print(b)
  {
    if a == [] {
      assert a + b == b;
    } else {
      PrintSplit(a[1..], b);
      assert (a + b)[1..] == a[1..] + b;
      PrintOne(a, Print(b));
    }
  }

  /** A request record whose value begins with a newline comes back blank, whatever else the value and the
      records after it hold: its result is forgotten. */
  lemma RequestResultLost(id: string, x: string, rs: seq<Record>)
    requires NL !in id
    ensures var read := Parse(Print([(REQ + id, [NL] + x)] + rs)); read != [] && read[0] == (REQ + id, "")
  {
    var key := REQ + id;
    var all := [(key, [NL] + x)] + rs;
    var rest := x + [NL] + Print(all[1..]);
    ParseOne((key, ""), rest, Print(all));
  }

  // ---------- the scan ----------

  /** Bytewise lexicographic order, the order of a database scan. */
  predicate Less(a: string, b: string) {
    if b == [] then false
    else if a == [] then true
    else a[0] < b[0] || (a[0] == b[0] && Less(a[1..], b[1..]))
  }

  predicate Ordered(rs: seq<Record>) {
    forall i, j :: 0 <= i < j < |rs| ==> Less(rs[i].0, rs[j].0)
  }

  predicate InState(r: Record) { StartsWith(r.0, ACCT) || StartsWith(r.0, REQ) }

  /** What a dump keeps of a scan of the whole database. */
  function StateRecords(rs: seq<Record>): seq<Record> {
    if rs == [] then []
    else if InState(rs[0]) then [rs[0]] + StateRecords(rs[1..])
    else StateRecords(rs[1..])
  }

  function Only(rs: seq<Record>, prefix: string): seq<Record> {
    if rs == [] then []
    else if StartsWith(rs[0].0, prefix) then [rs[0]] + Only(rs[1..], prefix)
    else Only(rs[1..], prefix)
  }

  lemma {:induction false} OnlyNone(rs: seq<Record>, prefix: string)
    requires forall k :: 0 <= k < |rs| ==> !StartsWith(rs[k].0, prefix)
    ensures Only(rs, prefix) == []
  {
    if rs != [] {
      OnlyNone(rs[1..], prefix);
    }
  }

  /** In key order all account records come before all request records, so a dump is one block of each. */
  lemma {:induction false} ScanSplits(rs: seq<Record>)
    requires Ordered(rs)
    ensures StateRecords(rs) == Only(rs, ACCT) + Only(rs, REQ)
  {
    if rs != [] {
      ScanSplits(rs[1..]);
      if StartsWith(rs[0].0, REQ) {
        forall k | 0 <= k < |rs[1..]| ensures !StartsWith(rs[1..][k].0, ACCT) {
          assert Less(rs[0].0, rs[k + 1].0);
        }
        OnlyNone(rs[1..], ACCT);
      }
    }
  }

  lemma {:induction false} OnlyDrawn(rs: seq<Record>, prefix: string, m: map<string, string>)
    requires forall k :: 0 <= k < |rs| && StartsWith(rs[k].0, prefix) ==> rs[k].0 in m && m[rs[k].0] == rs[k].1
    ensures DrawnFrom(Only(rs, prefix), m)
    ensures forall key :: key in KeysOf(Only(rs, prefix)) <==> key in KeysOf(rs) && StartsWith(key, prefix)
  {
    if rs != [] {
      OnlyDrawn(rs[1..], prefix, m);
    }
  }

  // ---------- balances as text ----------

  /** std::stoi of a stored balance. It throws on text that is no numeral; no dump of balances holds any. */
  function StoredInt(v: string): int {
    if v != [] && Numeral(v) then Value(v) else 0
  }

  /** The balances that getBalance reads from the records m. */
  function Balances(m: map<string, string>): map<string, int> {
    map id | id in (set key | key in m && StartsWith(key, ACCT) :: key[|ACCT|..]) ::
      StoredInt(if ACCT + id in m then m[ACCT + id] else "")
  }

  lemma BalanceRead(m: map<string, string>, id: string)
    ensures id in Balances(m) <==> ACCT + id in m
    ensures id in Balances(m) ==> Balances(m)[id] == StoredInt(m[ACCT + id])
  {
    if ACCT + id in m {
      assert StartsWith(ACCT + id, ACCT) && (ACCT + id)[|ACCT|..] == id;
    }
    if id in Balances(m) {
      var key :| key in m && StartsWith(key, ACCT) && key[|ACCT|..] == id;
      assert key == ACCT + id;
    }
  }

  /** The account records as a map. */
  function AsText(accounts: map<string, int>): map<string, string> {
    map key | key in (set id | id in accounts :: ACCT + id) :: Decimal(accounts[key[|ACCT|..]])
  }

  lemma DigitsClean(n: nat)
    ensures NL !in Digits(n)
  {
    ReadsBack(n);
  }

  /** A scan of the whole database in key order. The bytes of a request record, a serialized
      CommandResult, may be anything. */
  ghost predicate ScanOf(scan: seq<Record>, accounts: map<string, int>, requests: set<string>) {
    && Ordered(scan)
    && (forall k :: 0 <= k < |scan| && StartsWith(scan[k].0, ACCT) ==>
          scan[k].0 in AsText(accounts) && AsText(accounts)[scan[k].0] == scan[k].1)
    && (forall id :: id in accounts ==> ACCT + id in KeysOf(scan))
    && (forall k :: 0 <= k < |scan| && StartsWith(scan[k].0, REQ) ==> scan[k].0[|REQ|..] in requests)
    && (forall id :: id in requests ==> REQ + id in KeysOf(scan))
  }

  lemma ScanListsAccounts(scan: seq<Record>, accounts: map<string, int>, requests: set<string>)
    requires ScanOf(scan, accounts, requests)
    ensures ListsMap(Only(scan, ACCT), AsText(accounts))
  {
    var m := AsText(accounts);
    OnlyDrawn(scan, ACCT, m);
    forall key | key in m ensures key in KeysOf(Only(scan, ACCT)) {
      var id :| id in accounts && key == ACCT + id;
    }
    forall key | key in KeysOf(Only(scan, ACCT)) ensures key in m {
      KeyDrawn(Only(scan, ACCT), m, key);
    }
  }

  lemma {:induction false} KeyDrawn(rs: seq<Record>, m: map<string, string>, key: string)
    requires DrawnFrom(rs, m) && key in KeysOf(rs)
    ensures key in m
  {
    if key != rs[0].0 {
      KeyDrawn(rs[1..], m, key);
    }
  }

  /** Every balance that w holds is one of accounts. */
  ghost predicate SameBalances(w: map<string, string>, accounts: map<string, int>) {
    forall id :: ACCT + id in w ==> id in accounts && accounts[id] == StoredInt(w[ACCT + id])
  }

  /** What b holds for an id when w is written over the accounts. */
  predicate ReadsOver(b: map<string, int>, accounts: map<string, int>, w: map<string, string>, id: string) {
    && (id in b <==> id in accounts || ACCT + id in w)
    && (id in b ==> b[id] == if ACCT + id in w then StoredInt(w[ACCT + id]) else accounts[id])
  }

  lemma OverRead(accounts: map<string, int>, w: map<string, string>, id: string)
    requires forall id :: id in accounts ==> accounts[id] >= 0
    ensures ReadsOver(Balances(AsText(accounts) + w), accounts, w, id)
  {
    BalanceRead(AsText(accounts) + w, id);
    if id in accounts {
      ReadsBack(accounts[id]);
    }
  }

  lemma SameOver(b: map<string, int>, accounts: map<string, int>, w: map<string, string>)
    requires forall id :: ReadsOver(b, accounts, w, id)
    ensures b == accounts <==> SameBalances(w, accounts)
  {
    if SameBalances(w, accounts) {
      forall id | id in accounts || id in b ensures id in accounts && id in b && b[id] == accounts[id] {
        assert ReadsOver(b, accounts, w, id);
      }
    } else {
      var id :| ACCT + id in w && !(id in accounts && accounts[id] == StoredInt(w[ACCT + id]));
      assert ReadsOver(b, accounts, w, id);
    }
  }

  lemma BalancesOver(accounts: map<string, int>, w: map<string, string>)
    requires forall id :: id in accounts ==> accounts[id] >= 0
    ensures Balances(AsText(accounts) + w) == accounts <==> SameBalances(w, accounts)
  {
    forall id ensures ReadsOver(Balances(AsText(accounts) + w), accounts, w, id) {
      OverRead(accounts, w, id);
    }
    SameOver(Balances(AsText(accounts) + w), accounts, w);
  }

  predicate CleanIds(accounts: map<string, int>) {
    forall id :: id in accounts ==> NL !in id
  }

  lemma AsTextClean(accounts: map<string, int>)
    requires CleanIds(accounts) && forall id :: id in accounts ==> accounts[id] >= 0
    ensures CleanMap(AsText(accounts))
  {
    forall key | key in AsText(accounts) ensures NL !in key && NL !in AsText(accounts)[key] {
      var id :| id in accounts && key == ACCT + id;
      DigitsClean(accounts[id]);
    }
  }

  lemma RestoredClean(t: string)
    ensures CleanIds(Balances(PutAll(map[], Parse(t))))
  {
    var m := PutAll(map[], Parse(t));
    ParseClean(t);
    PutAllClean(map[], Parse(t));
    forall id | id in Balances(m) ensures NL !in id {
      BalanceRead(m, id);
      forall k | 0 <= k < |id| ensures id[k] == (ACCT + id)[|ACCT| + k] {
      }
    }
  }

  /** The dump of a database with non-negative balances restores them if and only if the account ids are
      newline-free and the block of request records, read on its own, writes no balance otherwise. */
  lemma DumpRestores(scan: seq<Record>, accounts: map<string, int>, requests: set<string>)
    requires ScanOf(scan, accounts, requests) && forall id :: id in accounts ==> accounts[id] >= 0
    ensures Balances(PutAll(map[], Parse(Print(StateRecords(scan))))) == accounts <==>
            CleanIds(accounts) && SameBalances(PutAll(map[], Parse(Print(Only(scan, REQ)))), accounts)
  {
    RestoredClean(Print(StateRecords(scan)));
    if CleanIds(accounts) {
      ScanSplits(scan);
      ScanListsAccounts(scan, accounts, requests);
      AsTextClean(accounts);
      ParseBlocks(Only(scan, ACCT), Only(scan, REQ), AsText(accounts));
      BalancesOver(accounts, PutAll(map[], Parse(Print(Only(scan, REQ)))));
    }
  }

  // ---------- reading a snapshot ----------

  /** The getline loop of applySnapshot: a key line, then a value line, until either is missing. */
  method ReadRecords(data: string, m0: map<string, string>) returns (m: map<string, string>)
    ensures m == PutAll(m0, Parse(data))
  {
    m := m0;
    var rest := data;
    while rest != ""
      invariant PutAll(m, Parse(rest)) == PutAll(m0, Parse(data))
      decreases |rest|
    {
      var key := rest[..LineEnd(rest)];
      var next := AfterLine(rest);
      if next == "" {
        assert Lines(rest) == [key];
        assert Parse(rest) == [];
        return;
      }
      var value := next[..LineEnd(next)];
      assert Lines(rest) == [key] + ([value] + Lines(AfterLine(next)));
      assert Lines(rest)[2..] == Lines(AfterLine(next));
      assert Parse(rest)[1..] == Parse(AfterLine(next));
      m := m[key := value];
      rest := AfterLine(next);
    }
  }

  /** The scan loop of createSnapshot. */
  method WriteRecords(rs: seq<Record>) returns (data: string)
    ensures data == Print(StateRecords(rs))
  {
    data := "";
    for k := 0 to |rs|
      invariant data + Print(StateRecords(rs[k..])) == Print(StateRecords(rs))
    {
      assert rs[k..][1..] == rs[k + 1..];
      if StartsWith(rs[k].0, ACCT) || StartsWith(rs[k].0, REQ) {
        PrintOne([rs[k]] + StateRecords(rs[k + 1..]), "");
        data := data + rs[k].0 + [NL] + rs[k].1 + [NL];
      }
    }
  }
}
