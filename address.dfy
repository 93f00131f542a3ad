/**
 * The two library calls `getPortFromAddress` (pkg/proxy/proxy.go) is made
 * of: the last element of `strings.Split(address, ":")` and
 * `strconv.Atoi` on a 64-bit platform; plus the decimal rendering of a port
 * that a TCP address's string form ends with.
 */
module AddressText {
  import opened Wrappers
  import opened Ints

  /** strconv.Atoi's failure (`*strconv.NumError`); the caller only tests it against nil. */
  datatype NumError = BadNumber

  /**
   * The last element of `strings.Split(s, ":")`: the longest suffix of s
   * without a colon, which is all of s when s has no colon.
   */
  function LastChunk(s: string): (r: string)
    ensures ':' !in r
    ensures |r| <= |s| && r == s[|s| - |r|..]
    ensures |r| == |s| || s[|s| - |r| - 1] == ':'
  {
    if s == [] then []
    else if s[|s| - 1] == ':' then []
    else LastChunk(s[..|s| - 1]) + [s[|s| - 1]]
  }

  /** After a colon, the chunk is whatever follows the last colon. */
  lemma {:induction false} LastChunkAfterColon(a: string, b: string)
    requires ':' !in b
    ensures LastChunk(a + [':'] + b) == b
  {
    var s := a + [':'] + b;
    if b == [] {
      assert s[|s| - 1] == ':';
    } else {
      var init, last := b[..|b| - 1], b[|b| - 1];
      assert b == init + [last];
      assert s[..|s| - 1] == a + [':'] + init;
      assert last in b;
      LastChunkAfterColon(a, init);
    }
  }

  /** The chunk is everything after the last colon of the string. */
  lemma LastChunkAfterLastColon(s: string)
    ensures forall i :: 0 <= i < |s| && s[i] == ':' && ':' !in s[i + 1..] ==> LastChunk(s) == s[i + 1..]
  {
    forall i | 0 <= i < |s| && s[i] == ':' && ':' !in s[i + 1..]
      ensures LastChunk(s) == s[i + 1..]
    {
      assert s == s[..i] + [':'] + s[i + 1..];
      LastChunkAfterColon(s[..i], s[i + 1..]);
    }
  }

  predicate IsDigit(c: char)
  {
    '0' <= c <= '9'
  }

  predicate AllDigits(s: string)
  {
    forall i :: 0 <= i < |s| ==> IsDigit(s[i])
  }

  /** The value of a string of decimal digits, most significant first. */
  function DigitsValue(s: string): nat
    requires AllDigits(s)
  {
    if s == [] then 0 else DigitsValue(s[..|s| - 1]) * 10 + (s[|s| - 1] as int - '0' as int)
  }

  /**
   * `strconv.Atoi`: an optional `+` or `-` sign, then one or more decimal
   * digits, whose value must fit a 64-bit int; anything else is an error.
   */
  function Atoi(s: string): (r: Result<int, NumError>)
    ensures r.Ok? ==> MIN_INT64 <= r.value <= MAX_INT64
    ensures r.Ok? ==> |s| > 0 && (forall i :: 0 < i < |s| ==> IsDigit(s[i]))
    ensures r.Ok? ==> IsDigit(s[0]) || (|s| > 1 && (s[0] == '+' || s[0] == '-'))
    ensures r.Ok? && IsDigit(s[0]) ==> r.value == DigitsValue(s)
    ensures r.Ok? && s[0] == '-' ==> r.value == -(DigitsValue(s[1..]) as int)
    ensures r.Ok? && s[0] == '+' ==> r.value == DigitsValue(s[1..])
    ensures |s| > 0 && AllDigits(s) && DigitsValue(s) <= MAX_INT64 ==> r == Ok(DigitsValue(s))
    ensures |s| > 1 && s[0] == '+' && AllDigits(s[1..]) && DigitsValue(s[1..]) <= MAX_INT64 ==>
      r == Ok(DigitsValue(s[1..]))
    ensures |s| > 1 && s[0] == '-' && AllDigits(s[1..]) && -(DigitsValue(s[1..]) as int) >= MIN_INT64 ==>
      r == Ok(-(DigitsValue(s[1..]) as int))
  {
    if |s| == 0 then Err(BadNumber)
    else
      var digits := if s[0] == '+' || s[0] == '-' then s[1..] else s;
      if |digits| == 0 || !AllDigits(digits) then Err(BadNumber)
      else
        var v: int := if s[0] == '-' then -(DigitsValue(digits) as int) else DigitsValue(digits);
        if v < MIN_INT64 || MAX_INT64 < v then Err(BadNumber) else Ok(v)
  }

  /** The decimal rendering of a natural number, without sign or leading zeros. */
  function Decimal(n: nat): (r: string)
    ensures |r| > 0 && AllDigits(r)
  {
    var d := ['0' + (n % 10) as char];
    if n < 10 then d else Decimal(n / 10) + d
  }

  /** Reading back a rendered number gives the number. */
  lemma {:induction false} DecimalValue(n: nat)
    ensures DigitsValue(Decimal(n)) == n
  {
    if n >= 10 {
      DecimalValue(n / 10);
      var s := Decimal(n);
      assert s[..|s| - 1] == Decimal(n / 10);
    }
  }

  /** strconv.Atoi parses every rendered int64-range natural back to itself. */
  lemma AtoiDecimal(n: nat)
    requires n <= MAX_INT64
    ensures Atoi(Decimal(n)) == Ok(n)
  {
    DecimalValue(n);
  }

  /** The whole chunk must be a number: a non-digit after the first character is an error. */
  lemma AtoiRejectsNonDigit(s: string, i: nat)
    requires 0 < i < |s| && !IsDigit(s[i])
    ensures Atoi(s).Err?
  {
  }
}
