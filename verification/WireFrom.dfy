/** The seed of a subscription on the wire: printed by the client, parsed by the server. */
module WireFrom {
  import opened Types

  /** The two fields of a subscribe frame that carry the seed; "" and 0 stand for absent. */
  datatype Seed = Seed(from: string, fromSeq: uint64)

  function Digit(d: nat): char
    requires d < 10
  {
    ('0' as int + d) as char
  }

  /** "%d" of a natural number. */
  function Decimal(n: nat): (s: string)
    ensures s != ""
  {
    if n < 10 then [Digit(n)] else Decimal(n / 10) + [Digit(n % 10)]
  }

  predicate AllDigits(s: string) { forall i :: 0 <= i < |s| ==> '0' <= s[i] <= '9' }

  /** The number a digit string denotes, unbounded. */
  function Value(s: string): nat
    requires AllDigits(s)
  {
    if s == "" then 0 else 10 * Value(s[..|s| - 1]) + (s[|s| - 1] as int - '0' as int)
  }

  lemma {:induction false} DecimalValue(n: nat)
    ensures AllDigits(Decimal(n)) && Value(Decimal(n)) == n
  {
    if n < 10 {
      assert Decimal(n)[..0] == "";
    } else {
      DecimalValue(n / 10);
      assert Decimal(n)[..|Decimal(n)| - 1] == Decimal(n / 10);
    }
  }

  /** subscribeFrame: a positive resume point overrides the seed. */
  function SubscribeSeed(from: From, resume: uint64): Seed {
    if resume > 0 then Seed("", resume)
    else match from
      case FromLatest => Seed("latest", 0)
      case FromLastN(n) => Seed("last:" + Decimal(n), 0)
      case FromSeq(s) => Seed("", s)
  }

  /** subscribeFrame as the program writes it: a local frame, filled by the first case that applies. */
  method SubscribeFrame(from: From, resume: uint64) returns (f: Seed)
    ensures f == SubscribeSeed(from, resume)
    ensures resume > 0 ==> f == Seed("", resume)
    ensures resume == 0 ==> f == match from
      case FromLatest => Seed("latest", 0)
      case FromLastN(n) => Seed("last:" + Decimal(n), 0)
      case FromSeq(s) => Seed("", s)
  {
    f := Seed("", 0);
    if resume > 0 {
      f := f.(fromSeq := resume);
    } else if from.FromLatest? {
      f := f.(from := "latest");
    } else if from.FromLastN? {
      f := f.(from := "last:" + Decimal(from.n));
    } else {
      f := f.(fromSeq := from.s);
    }
  }

  const LAST := "last:"

  /** What a seed means: accumulation is in 64 bits, so the count is the denoted number modulo 2^64. */
  function Meaning(f: Seed): From {
    if f.fromSeq > 0 then FromSeq(f.fromSeq)
    else if |f.from| > 5 && f.from[..5] == LAST && AllDigits(f.from[5..]) then FromLastN(Value(f.from[5..]) % TWO64)
    else FromLatest
  }

  lemma ShiftMod(v: nat, d: nat)
    ensures (v % TWO64 * 10 + d) % TWO64 == (10 * v + d) % TWO64
  {
    var q := v / TWO64;
    assert v == q * TWO64 + v % TWO64;
    assert 10 * v + d == (v % TWO64 * 10 + d) + (10 * q) * TWO64;
    AddMultiple(v % TWO64 * 10 + d, 10 * q);
  }

  lemma {:induction false} AddMultiple(a: nat, q: nat)
    ensures (a + q * TWO64) % TWO64 == a % TWO64
  {
    if q > 0 { AddMultiple(a, q - 1); }
  }

  /** parseFrom as the program writes it. */
  method ParseFrom(from: string, fromSeq: uint64) returns (r: From)
    ensures r == Meaning(Seed(from, fromSeq))
  {
    if fromSeq > 0 { return FromSeq(fromSeq); }
    if from == "" || from == "latest" {
      assert from == "latest" ==> from[..5] != LAST by {
        assert from == "latest" ==> from[2] != LAST[2] && from[..5][2] == from[2];
      }
      return FromLatest;
    }
    if |from| > 5 && from[..5] == LAST {
      var digits := from[5..];
      var n: uint64 := 0;
      var i := 0;
      while i < |digits|
        invariant 0 <= i <= |digits|
        invariant AllDigits(digits[..i])
        invariant n == Value(digits[..i]) % TWO64
      {
        var c := digits[i];
        if c < '0' || c > '9' { return FromLatest; }
        assert digits[..i + 1][..i] == digits[..i];
        ShiftMod(Value(digits[..i]), c as int - '0' as int);
        n := (n * 10 + (c as int - '0' as int)) % TWO64;
        i := i + 1;
      }
      assert digits[..i] == digits;
      return FromLastN(n);
    }
    return FromLatest;
  }

  /** Every seed survives the wire except Seq(0), which comes out as Latest. */
  lemma RoundTripIff(from: From)
    ensures Meaning(SubscribeSeed(from, 0)) == from <==> from != FromSeq(0)
    ensures Meaning(SubscribeSeed(FromSeq(0), 0)) == FromLatest
  {
    match from
    case FromLastN(n) =>
      var text := "last:" + Decimal(n);
      assert text[..5] == LAST && text[5..] == Decimal(n);
      DecimalValue(n);
    case _ =>
      assert "latest"[..5][2] == 't' && LAST[2] == 's';
  }

  /** A resume point always survives, whatever the original seed. */
  lemma ResumeRoundTrip(from: From, resume: uint64)
    requires resume > 0
    ensures Meaning(SubscribeSeed(from, resume)) == FromSeq(resume)
  {
  }

  /** The text a "last:" seed was printed from can be read back exactly iff the number fits 64 bits. */
  lemma LastNExactIff(n: nat)
    ensures Meaning(Seed("last:" + Decimal(n), 0)) == FromLastN(n % TWO64)
    ensures n % TWO64 == n <==> n < TWO64
  {
    var text := "last:" + Decimal(n);
    assert text[..5] == LAST && text[5..] == Decimal(n);
    DecimalValue(n);
  }

  /** The documented example, both ways. */
  lemma LastFifty()
    ensures SubscribeSeed(FromLastN(50), 0) == Seed("last:50", 0)
    ensures Meaning(Seed("last:50", 0)) == FromLastN(50)
  {
    assert Decimal(5) == "5" && Decimal(50) == Decimal(5) + "0";
    LastNExactIff(50);
  }

  /** The text form "seq:N", which the browser client sends when asked for it, is not understood. */
  lemma SeqTextMeansLatest(n: nat)
    ensures Meaning(Seed("seq:" + Decimal(n), 0)) == FromLatest
  {
    var text := "seq:" + Decimal(n);
    if |text| > 5 { assert text[..5][0] == 's' && LAST[0] == 'l'; }
  }
}
