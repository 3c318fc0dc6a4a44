/** From the D-Bus path of a bearer to a profile number and back, through C's string functions. */
module BearerPath {
  import opened CText

  const PREFIX := "/org/freedesktop/ModemManager1/Bearer/"
  const INDEX_SIZE := 8
  const PATH_SIZE := 64

  predicate IsDigit(c: char) {
    '0' <= c <= '9'
  }

  // "%d" of a number that is not negative.
  function Decimal(n: nat): (s: string)
    ensures s != [] && forall k :: 0 <= k < |s| ==> IsDigit(s[k])
    decreases n
  {
    (if n < 10 then [] else Decimal(n / 10)) + ['0' + (n % 10) as char]
  }

  function Printed(n: int): string {
    if n < 0 then "-" + Decimal(-n) else Decimal(n)
  }

  // What atoi makes of text that starts with no blank and no sign; acc is the value read so far.
  function Parsed(s: string, acc: nat): nat {
    if s == [] || !IsDigit(s[0]) then acc else Parsed(s[1..], 10 * acc + (s[0] as int - '0' as int))
  }

  // strncpy into the index buffer, whose last byte it leaves as it was: junk is that byte and what lies behind it.
  function IndexMemory(index: string, junk: string): (r: string)
    ensures |r| == INDEX_SIZE - 1 + |junk|
  {
    (if |index| < INDEX_SIZE - 1 then index + seq(INDEX_SIZE - 1 - |index|, _ => NUL) else index[..INDEX_SIZE - 1]) + junk
  }

  // The profile number given to a new bearer.
  function ProfileIdOf(path: string, junk: string): nat
    requires |path| >= |PREFIX|
  {
    Parsed(IndexMemory(path[|PREFIX|..], junk), 0)
  }

  // The path looked for when a profile is deleted.
  function PathOf(profileId: int): string {
    Clip(PREFIX + Printed(profileId), PATH_SIZE - 1)
  }

  // ---- The round trip ----

  // Reading on past printed digits continues with what follows them.
  lemma {:induction false} ParsedAppend(s: string, t: string, acc: nat)
    requires forall k :: 0 <= k < |s| ==> IsDigit(s[k])
    ensures Parsed(s + t, acc) == Parsed(t, Parsed(s, acc))
    decreases |s|
  {
    if s == [] {
      assert s + t == t;
    } else {
      assert (s + t)[1..] == s[1..] + t;
      ParsedAppend(s[1..], t, 10 * acc + (s[0] as int - '0' as int));
    }
  }

  lemma {:induction false} ParsedDecimal(n: nat)
    ensures Parsed(Decimal(n), 0) == n
    decreases n
  {
    var last := ['0' + (n % 10) as char];
    assert last[1..] == [];
    if n >= 10 {
      ParsedDecimal(n / 10);
      ParsedAppend(Decimal(n / 10), last, 0);
    }
  }

  function Power(k: nat): nat {
    if k == 0 then 1 else 10 * Power(k - 1)
  }

  lemma {:induction false} PowerGrows(k: nat)
    requires k >= 1
    ensures Power(k) >= 10
  {
    if k > 1 { PowerGrows(k - 1); }
  }

  lemma {:induction false} DecimalLength(n: nat, k: nat)
    requires k >= 1
    ensures |Decimal(n)| <= k <==> n < Power(k)
    decreases k
  {
    if n >= 10 && k > 1 {
      DecimalLength(n / 10, k - 1);
      assert n / 10 < Power(k - 1) <==> n < 10 * Power(k - 1);
    } else if k == 1 {
      assert Power(1) == 10 * Power(0);
    } else {
      PowerGrows(k);
    }
  }

  lemma ShortIndexParses(n: nat, junk: string)
    requires n < 1_000_000
    ensures Parsed(IndexMemory(Decimal(n), junk), 0) == n
  {
    assert Power(6) == 1_000_000;
    DecimalLength(n, 6);
    var d := Decimal(n);
    var rest := seq(INDEX_SIZE - 1 - |d|, _ => NUL) + junk;
    assert IndexMemory(d, junk) == d + rest;
    ParsedAppend(d, rest, 0);
    ParsedDecimal(n);
  }

  // A number cut short before its last digit is smaller.
  lemma {:induction false} CutDecimal(n: nat, k: nat)
    requires 1 <= k < |Decimal(n)|
    ensures Parsed(Decimal(n)[..k], 0) < n
    decreases n
  {
    var head := Decimal(n / 10);
    assert Decimal(n)[..k] == head[..k];
    if k == |head| {
      assert head[..k] == head;
      ParsedDecimal(n / 10);
    } else {
      CutDecimal(n / 10, k);
    }
  }

  // Seven digits or more leave no terminator: a digit behind them is read too, and anything else cuts them off.
  lemma LongIndexMisparses(n: nat) returns (junk: string)
    requires n >= 1_000_000
    ensures |junk| >= 1
    ensures var m := Parsed(IndexMemory(Decimal(n), junk), 0);
            m != n && (m < n || |Decimal(n)| == 7)
  {
    assert Power(6) == 1_000_000;
    DecimalLength(n, 6);
    var d := Decimal(n);
    if |d| == 7 {
      junk := "0";
      assert IndexMemory(d, junk) == d + "0";
      ParsedDecimal(n);
      ParsedAppend(d, "0", 0);
      assert Parsed("0", n) == 10 * n by { assert "0"[1..] == []; }
    } else {
      junk := "/";
      assert IndexMemory(d, junk) == d[..7] + "/";
      ParsedAppend(d[..7], "/", 0);
      CutDecimal(n, 7);
    }
  }

  lemma PathIsInjective(m: nat, n: nat)
    requires PathOf(m) == PREFIX + Decimal(n)
    requires m < n || |Decimal(n)| == 7
    ensures m == n
  {
    var d := Decimal(m);
    var kept := |PathOf(m)| - |PREFIX|;
    assert PathOf(m)[|PREFIX|..] == d[..kept];
    assert (PREFIX + Decimal(n))[|PREFIX|..] == Decimal(n);
    if kept == |d| {
      assert d[..kept] == d;
      ParsedDecimal(m);
      ParsedDecimal(n);
    } else {
      DecimalLength(m, 24);
      DecimalLength(n, 24);
      assert false;
    }
  }

  /**
   The number parsed from a bearer's path leads back to that path whatever was in the index buffer before, exactly
   for bearer indices under a million.
   */
  lemma PathRoundTrip(n: nat)
    ensures (forall junk: string | |junk| >= 1 :: PathOf(ProfileIdOf(PREFIX + Decimal(n), junk)) == PREFIX + Decimal(n))
            <==> n < 1_000_000
  {
    var path := PREFIX + Decimal(n);
    assert path[|PREFIX|..] == Decimal(n);
    if n < 1_000_000 {
      DecimalLength(n, 6);
      assert Power(6) == 1_000_000;
      forall junk: string | |junk| >= 1
        ensures PathOf(ProfileIdOf(path, junk)) == path
      {
        ShortIndexParses(n, junk);
      }
    } else {
      var junk := LongIndexMisparses(n);
      var m := ProfileIdOf(path, junk);
      if PathOf(m) == path {
        PathIsInjective(m, n);
      }
    }
  }
}
