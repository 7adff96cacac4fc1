/**
 * The random generators of pkg/utils (cmd/server/main.go carries verbatim
 * copies of them). Every draw of `math/rand` is an input: an index into the
 * alphabet or list it selects from.
 */
module Utils {
  import opened GoText

  const Numbers: string := "0123456789"

  const Months: seq<string> := ["01", "02", "03", "04", "05", "06", "07", "08", "09", "10", "11", "12"]

  const Years: seq<string> := ["19", "20", "21", "22", "23"]

  /** Draws that rand.Intn(|alphabet|) can produce. */
  predicate DrawsFit(draws: seq<nat>, bound: nat) {
    forall i :: 0 <= i < |draws| ==> draws[i] < bound
  }

  /** The string spelled by picking `alphabet[draws[i]]` at each position. */
  function Spell(alphabet: string, draws: seq<nat>): string
    requires DrawsFit(draws, |alphabet|)
  {
    seq(|draws|, i requires 0 <= i < |draws| => alphabet[draws[i]])
  }

  /** Every character of a spelled string comes from the alphabet. */
  lemma SpellFromAlphabet(alphabet: string, draws: seq<nat>)
    requires DrawsFit(draws, |alphabet|)
    ensures |Spell(alphabet, draws)| == |draws|
    ensures forall i :: 0 <= i < |draws| ==> Spell(alphabet, draws)[i] in alphabet
  {
  }

  /** A string spelled from Numbers is all decimal digits. */
  lemma SpellNumbersIsDigits(draws: seq<nat>)
    requires DrawsFit(draws, |Numbers|)
    ensures AllDigits(Spell(Numbers, draws))
  {
    forall i | 0 <= i < |draws|
      ensures IsDigit(Spell(Numbers, draws)[i])
    {
      assert Spell(Numbers, draws)[i] == Numbers[draws[i]];
    }
  }

  /**
   * RandomStringNumber(n): fills a slice of n runes, each drawn from
   * "0123456789".
   */
  method RandomStringNumber(n: nat, draws: seq<nat>) returns (s: string)
    requires |draws| == n && DrawsFit(draws, |Numbers|)
    ensures s == Spell(Numbers, draws)
    ensures |s| == n && AllDigits(s)
  {
    var b := new char[n];
    for i := 0 to n
      invariant forall k :: 0 <= k < i ==> b[k] == Numbers[draws[k]]
    {
      b[i] := Numbers[draws[i]];
    }
    s := b[..];
    assert s == Spell(Numbers, draws);
    SpellNumbersIsDigits(draws);
  }

  /** The numeric value of a two-digit string. */
  function TwoDigitValue(s: string): nat
    requires |s| == 2 && AllDigits(s)
  {
    DigitValue(s[0]) * 10 + DigitValue(s[1])
  }

  /** PickMonth: one of "01" .. "12"; draw k gives month k + 1. */
  function PickMonth(draw: nat): (r: string)
    requires draw < |Months|
    ensures |r| == 2 && AllDigits(r)
    ensures TwoDigitValue(r) == draw + 1
    ensures 1 <= TwoDigitValue(r) <= 12
  {
    Months[draw]
  }

  /** PickYear: one of "19" .. "23"; draw k gives year 19 + k. */
  function PickYear(draw: nat): (r: string)
    requires draw < |Years|
    ensures |r| == 2 && AllDigits(r)
    ensures TwoDigitValue(r) == 19 + draw
    ensures 19 <= TwoDigitValue(r) <= 23
  {
    Years[draw]
  }

  /**
   * RandomProcessTime(min, max) = rand.Intn(max - min) + min. rand.Intn
   * panics unless its argument is positive, hence max > min.
   */
  function RandomProcessTime(min: int, max: int, draw: nat): (r: int)
    requires max > min && draw < max - min
    ensures min <= r < max
  {
    draw + min
  }
}
