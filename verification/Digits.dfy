/**
 * The decimal text of a 64-bit counter and the reservation ids built from it.
 * Both internal/reservation and internal/ledger carry the same backwards buffer fill.
 */
module Digits {

  const U64: nat := 0x1_0000_0000_0000_0000

  function Digit(d: nat): char
    requires d < 10
  {
    '0' + d as char
  }

  predicate AllDigits(s: string) {
    forall i :: 0 <= i < |s| ==> '0' <= s[i] <= '9'
  }

  /** The digits of n with no leading zero; empty for 0. */
  function Body(n: nat): string {
    if n == 0 then "" else Body(n / 10) + [Digit(n % 10)]
  }

  /** What the source's itoa returns. */
  function Text(n: nat): string {
    if n == 0 then "0" else Body(n)
  }

  lemma {:induction false} BodyIsDigits(n: nat)
    ensures AllDigits(Body(n))
  {
    if n > 0 {
      BodyIsDigits(n / 10);
    }
  }

  /** Reading decimal text back. */
  function Value(s: string): nat
    requires AllDigits(s)
  {
    if s == "" then 0 else Value(s[..|s| - 1]) * 10 + (s[|s| - 1] as int - '0' as int)
  }

  lemma {:induction false} BodyRoundTrip(n: nat)
    ensures AllDigits(Body(n)) && Value(Body(n)) == n
  {
    BodyIsDigits(n);
    if n > 0 {
      BodyRoundTrip(n / 10);
      assert Body(n)[..|Body(n)| - 1] == Body(n / 10);
    }
  }

  lemma RoundTrip(n: nat)
    ensures AllDigits(Text(n)) && Value(Text(n)) == n
  {
    if n == 0 {
      assert Value("0") == Value("") * 10;
    } else {
      BodyRoundTrip(n);
    }
  }

  function Pow10(k: nat): (p: nat)
    ensures p > 0
  {
    if k == 0 then 1 else 10 * Pow10(k - 1)
  }

  lemma Pow10Of20()
    ensures Pow10(20) == 100_000_000_000_000_000_000
  {
    assert Pow10(5) == 100_000;
    assert Pow10(10) == 100_000 * Pow10(5);
    assert Pow10(15) == 100_000 * Pow10(10);
    assert Pow10(20) == 100_000 * Pow10(15);
  }

  /** itoa: fills a 20-byte buffer from the right. The index never leaves the buffer for any 64-bit n. */
  method Itoa(n: nat) returns (s: string)
    requires n < U64
    ensures s == Text(n) && AllDigits(s) && Value(s) == n
    ensures |s| <= 20
  {
    RoundTrip(n);
    if n == 0 {
      return "0";
    }
    var buf := new char[20];
    var i := 20;
    var rest: nat := n;
    Pow10Of20();
    while rest > 0
      invariant 0 <= i <= 20
      invariant Body(n) == Body(rest) + buf[i..]
      invariant rest < Pow10(i)
    {
      ghost var tail := buf[i..];
      i := i - 1;
      buf[i] := Digit(rest % 10);
      assert buf[i..] == [Digit(rest % 10)] + tail;
      BodyStep(rest, tail);
      rest := rest / 10;
    }
    s := buf[i..];
    assert Body(n) == s;
  }

  lemma BodyStep(rest: nat, tail: string)
    requires rest > 0
    ensures Body(rest) + tail == Body(rest / 10) + ([Digit(rest % 10)] + tail)
  {
  }

  /** The id that the k-th draw of the 64-bit counter gives: the counter wraps at 2^64. */
  function Id(stamp: string, k: nat): (id: string) {
    stamp + "-" + Text(k % U64)
  }

  /** One more draw of the wrapping counter. */
  lemma CounterSteps(k: nat)
    ensures (k % U64 + 1) % U64 == (k + 1) % U64
  {
  }

  lemma IdFromText(stamp: string, k: nat, digits: string)
    requires digits == Text(k % U64)
    ensures stamp + "-" + digits == Id(stamp, k)
  {
  }

  lemma IdIsNotEmpty(stamp: string, k: nat)
    ensures Id(stamp, k) != ""
  {
    assert |Id(stamp, k)| == |stamp| + 1 + |Text(k % U64)|;
  }

  /** The number after the last '-' of an id, or 0 when what follows is not decimal text. */
  function Serial(id: string): nat {
    var tail := AfterDash(id);
    if AllDigits(tail) then Value(tail) else 0
  }

  function AfterDash(id: string): string {
    if id == "" || id[|id| - 1] == '-' then ""
    else AfterDash(id[..|id| - 1]) + [id[|id| - 1]]
  }

  lemma {:induction false} AfterDashOf(stamp: string, digits: string)
    requires AllDigits(digits)
    ensures AfterDash(stamp + "-" + digits) == digits
  {
    var id := stamp + "-" + digits;
    if digits == "" {
      assert id[|id| - 1] == '-';
    } else {
      var init := digits[..|digits| - 1];
      AfterDashOf(stamp, init);
      assert id[..|id| - 1] == stamp + "-" + init;
      assert id[|id| - 1] == digits[|digits| - 1];
      assert digits == init + [digits[|digits| - 1]];
    }
  }

  /** Whatever text the clock contributed, the counter can be read back from the id. */
  lemma SerialOfId(stamp: string, k: nat)
    ensures Serial(Id(stamp, k)) == k % U64
  {
    RoundTrip(k % U64);
    AfterDashOf(stamp, Text(k % U64));
  }

  /** Two draws less than 2^64 apart never give the same id, whatever the clock text. */
  lemma IdsDistinct(stamp: string, j: nat, stamp': string, k: nat)
    requires j < k < j + U64
    ensures Id(stamp, j) != Id(stamp', k)
  {
    SerialOfId(stamp, j);
    SerialOfId(stamp', k);
    NoWrapCollision(j, k, U64);
  }

  /** One of the first n ids drawn. */
  ghost predicate Drawn(id: string, n: nat) {
    exists stamp, j :: 1 <= j <= n && id == Id(stamp, j)
  }

  lemma DrawnGrows(id: string, n: nat, m: nat)
    requires Drawn(id, n) && n <= m
    ensures Drawn(id, m)
  {
    var stamp, j :| 1 <= j <= n && id == Id(stamp, j);
    assert 1 <= j <= m && id == Id(stamp, j);
  }

  /** The next draw is none of the earlier ones. */
  lemma NextIsNew(stamp: string, n: nat)
    requires n + 1 < U64
    ensures !Drawn(Id(stamp, n + 1), n) && Drawn(Id(stamp, n + 1), n + 1)
  {
    var id := Id(stamp, n + 1);
    forall stamp', j | 1 <= j <= n ensures id != Id(stamp', j) {
      IdsDistinct(stamp', j, stamp, n + 1);
    }
    assert 1 <= n + 1 <= n + 1 && id == Id(stamp, n + 1);
  }

  lemma NoWrapCollision(j: nat, k: nat, u: nat)
    requires j < k < j + u
    ensures j % u != k % u
  {
    var turns := k / u - j / u;
    assert k % u - j % u == (k - j) - u * turns by {
      assert k == u * (k / u) + k % u;
      assert j == u * (j / u) + j % u;
      assert u * turns == u * (k / u) - u * (j / u);
    }
    MultipleOf(u, turns);
  }

  lemma MultipleOf(u: nat, m: int)
    ensures m >= 1 ==> u * m >= u
    ensures m <= 0 ==> u * m <= 0
  {
  }

  /** The bound is exact: after a full turn of the counter the same clock text repeats the id. */
  lemma IdsRepeatAfterFullTurn(stamp: string, k: nat)
    ensures Id(stamp, k) == Id(stamp, k + U64)
  {
    assert (k + U64) % U64 == k % U64;
  }
}
