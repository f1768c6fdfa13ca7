/**
 * The random test-data helpers of package util.
 *
 * Go's global `math/rand` source is modelled by two oracle methods whose only
 * promise is the range of the value they return (`0 <= r < n`); each call may
 * return any such value. Every property below therefore holds whatever the
 * random draws are.
 */
module Random {
  import opened GoInt

  /** The letters random strings are drawn from. */
  const Alphabet: string := "abcdefghijklmnopqrstuvwxyz"

  /** The currency codes a random currency is drawn from. */
  const Currencies: seq<string> := ["EUR", "USD", "CAD"]

  /** Every character is an ASCII lower-case letter. */
  predicate IsLowercase(s: string)
  {
    forall i :: 0 <= i < |s| ==> 'a' <= s[i] <= 'z'
  }

  /** The alphabet is exactly the 26 lower-case letters, in order. */
  lemma AlphabetIsLetters()
    ensures |Alphabet| == 26
    ensures forall i :: 0 <= i < 26 ==> Alphabet[i] as int == 'a' as int + i
    ensures forall c :: c in Alphabet <==> 'a' <= c <= 'z'
  {
  }

  /** `rand.Int63n(n)`: panics unless `n > 0`, otherwise some value in `[0, n)`. */
  method Int63n(n: int64) returns (r: int64)
    requires n > 0
    ensures 0 <= r < n
  {
    r :| 0 <= r < n;
  }

  /** `rand.Intn(n)` (Go's `int` is taken as 64 bits): panics unless `n > 0`, otherwise some value in `[0, n)`. */
  method Intn(n: int64) returns (r: int64)
    requires n > 0
    ensures 0 <= r < n
  {
    r :| 0 <= r < n;
  }

  /** The argument `RandomInt` hands to `Int63n`: `max-min+1` in wrapping int64 arithmetic. */
  function Span(min: int64, max: int64): int64
  {
    Add64(Sub64(max, min), 1)
  }

  /**
   * For `min <= max`, `Int63n` is handed a positive bound exactly when the
   * true width `max-min+1` fits in an int64; otherwise the wrapped bound is
   * zero or negative and `Int63n` panics.
   */
  lemma SpanPositiveIff(min: int64, max: int64)
    requires min <= max
    ensures Span(min, max) > 0 <==> max as int - min as int + 1 <= MaxInt64
    ensures Span(min, max) > 0 ==> Span(min, max) as int == max as int - min as int + 1
  {
  }

  /** `RandomInt(min, max)`: a value in `[min, max]`. */
  method RandomInt(min: int64, max: int64) returns (v: int64)
    requires Span(min, max) > 0
    ensures min <= max ==> min <= v <= max
  {
    var r := Int63n(Span(min, max));
    v := Add64(min, r);
    if min <= max {
      SpanPositiveIff(min, max);
      assert v as int == min as int + r as int;
    }
  }

  /** The string that a sequence of draws from `[0, 26)` spells, one letter per draw. */
  function Spell(draws: seq<int64>): (s: string)
    requires forall i :: 0 <= i < |draws| ==> 0 <= draws[i] < 26
    ensures |s| == |draws|
    ensures forall i :: 0 <= i < |s| ==> s[i] in Alphabet
    ensures IsLowercase(s)
  {
    if draws == [] then []
    else
      AlphabetIsLetters();
      Spell(draws[..|draws| - 1]) + [Alphabet[draws[|draws| - 1]]]
  }

  /**
   * `RondomString(n)`: `n` letters of the alphabet (none when `n <= 0`, since
   * the loop does not run), each chosen by one `Intn(26)` draw.
   * Go's `int` parameter is taken as 64 bits.
   */
  method RondomString(n: int64) returns (s: string, ghost draws: seq<int64>)
    ensures |s| == if n < 0 then 0 else n as int
    ensures forall i :: 0 <= i < |s| ==> s[i] in Alphabet
    ensures IsLowercase(s)
    ensures |draws| == |s|
    ensures forall i :: 0 <= i < |draws| ==> 0 <= draws[i] < 26
    ensures s == Spell(draws)
  {
    var sb: string := [];
    draws := [];
    var k := |Alphabet| as int64;
    var i: int64 := 0;
    while i < n
      invariant 0 <= i as int <= if n < 0 then 0 else n as int
      invariant |sb| == i as int
      invariant |draws| == i as int
      invariant forall j :: 0 <= j < |draws| ==> 0 <= draws[j] < 26
      invariant sb == Spell(draws)
    {
      var d := Intn(k);
      var c := Alphabet[d];
      sb := sb + [c];
      draws := draws + [d];
      assert draws[..|draws| - 1] == draws[..i];
      i := i + 1;
    }
    s := sb;
  }

  /** `RondomOwner()`: a six-letter lower-case name. */
  method RondomOwner() returns (s: string)
    ensures |s| == 6
    ensures IsLowercase(s)
  {
    ghost var draws;
    s, draws := RondomString(6);
  }

  /** `RondomMoney()`: an amount in `[0, 1000]`. */
  method RondomMoney() returns (v: int64)
    ensures 0 <= v <= 1000
  {
    SpanPositiveIff(0, 1000);
    v := RandomInt(0, 1000);
  }

  /** `RondomCurrency()`: one of the three currency codes. */
  method RondomCurrency() returns (c: string)
    ensures c == "EUR" || c == "USD" || c == "CAD"
  {
    var currencies := Currencies;
    var n := |currencies| as int64;
    var i := Intn(n);
    c := currencies[i];
  }
}
