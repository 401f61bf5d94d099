/** Decimal numerals and the keys of the database. */
module Text {
  function Digit(d: nat): char
    requires d < 10
  {
    ('0' as int + d) as char
  }

  function Digits(n: nat): (s: string)
    ensures s != []
  {
    if n < 10 then [Digit(n)] else Digits(n / 10) + [Digit(n % 10)]
  }

  /** std::to_string. */
  function Decimal(n: int): string {
    if n < 0 then "-" + Digits(-n) else Digits(n)
  }

  predicate IsDigit(ch: char) { '0' <= ch <= '9' }

  predicate Numeral(s: string) {
    forall k :: 0 <= k < |s| ==> IsDigit(s[k])
  }

  /** std::stoi on a numeral, leading zeros included. */
  function Value(s: string): nat
    requires Numeral(s)
  {
    if s == [] then 0 else 10 * Value(s[..|s| - 1]) + (s[|s| - 1] as int - '0' as int)
  }

  /** Reading back what was printed. */
  lemma {:induction false} ReadsBack(n: nat)
    ensures Numeral(Digits(n)) && Value(Digits(n)) == n
  {
    if n >= 10 {
      ReadsBack(n / 10);
      assert Digits(n)[..|Digits(n)| - 1] == Digits(n / 10);
    } else {
      assert Digits(n)[..0] == [];
    }
  }

  lemma DecimalInjective(a: nat, b: nat)
    requires Decimal(a) == Decimal(b)
    ensures a == b
  {
    ReadsBack(a);
    ReadsBack(b);
  }

  // ---------- log keys ----------

  const WIDTH: nat := 10

  function Zeros(n: nat): (s: string)
    ensures |s| == n && forall k :: 0 <= k < n ==> s[k] == '0'
  {
    seq(n, _ => '0')
  }

  /** setw and setfill: pad on the left, never cut. */
  function Padded(s: string): string {
    if |s| >= WIDTH then s else Zeros(WIDTH - |s|) + s
  }

  function LogKey(index: nat): string {
    "log:" + Padded(Decimal(index))
  }

  lemma {:induction false} ZerosVanish(n: nat, s: string)
    requires Numeral(s)
    ensures Numeral(Zeros(n) + s) && Value(Zeros(n) + s) == Value(s)
    decreases n + |s|
  {
    var t := Zeros(n) + s;
    if s != [] {
      ZerosVanish(n, s[..|s| - 1]);
      assert t[..|t| - 1] == Zeros(n) + s[..|s| - 1];
    } else if n > 0 {
      ZerosVanish(n - 1, []);
      assert t[..|t| - 1] == Zeros(n - 1) + [];
    }
  }

  lemma PaddedReadsBack(n: nat)
    ensures Numeral(Padded(Digits(n))) && Value(Padded(Digits(n))) == n
  {
    ReadsBack(n);
    if |Digits(n)| < WIDTH {
      ZerosVanish(WIDTH - |Digits(n)|, Digits(n));
    }
  }

  /** Different log indexes have different keys, so the keyed records can be read as a map from indexes. */
  lemma LogKeyInjective(a: nat, b: nat)
    requires LogKey(a) == LogKey(b)
    ensures a == b
  {
    assert LogKey(a)[4..] == Padded(Digits(a)) && LogKey(b)[4..] == Padded(Digits(b));
    PaddedReadsBack(a);
    PaddedReadsBack(b);
  }
}
