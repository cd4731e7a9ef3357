/**
 * Points in time and their text form.
 *
 * The todo item reads the wall clock (`datetime.now()`) and serialises
 * timestamps with `isoformat`/`fromisoformat`. The clock is not modelled:
 * every operation that reads it takes the current time as a parameter.
 * A timestamp is an opaque tick count, and its text form is the decimal
 * numeral of that count: like the ISO text it stands for, it is never empty,
 * it is parsed back to the same timestamp, and malformed text is rejected.
 */
module Timestamps {
  import opened Wrappers

  datatype Timestamp = Timestamp(ticks: nat)

  predicate IsDigit(c: char) {
    '0' <= c <= '9'
  }

  function DigitChar(d: nat): (c: char)
    requires d < 10
    ensures IsDigit(c) && c as int - '0' as int == d
  {
    ('0' as int + d) as char
  }

  /** Decimal numeral of `n`, most significant digit first, no leading zeros. */
  function Numeral(n: nat): (s: string)
    ensures s != []
    ensures forall i :: 0 <= i < |s| ==> IsDigit(s[i])
    decreases n
  {
    if n < 10 then [DigitChar(n)] else Numeral(n / 10) + [DigitChar(n % 10)]
  }

  /** The value of a string of decimal digits. */
  function NumeralValue(s: string): nat
    requires forall i :: 0 <= i < |s| ==> IsDigit(s[i])
    decreases |s|
  {
    if s == [] then 0
    else
      assert IsDigit(s[|s| - 1]);
      NumeralValue(s[..|s| - 1]) * 10 + (s[|s| - 1] as int - '0' as int)
  }

  /** Text form of a timestamp (stands for `datetime.isoformat`). */
  function IsoFormat(t: Timestamp): (s: string)
    ensures s != []
  {
    Numeral(t.ticks)
  }

  /** Parses the text form; `None` where `datetime.fromisoformat` raises `ValueError`. */
  function FromIsoFormat(s: string): (r: Option<Timestamp>)
    ensures r.Some? <==> s != [] && forall i :: 0 <= i < |s| ==> IsDigit(s[i])
  {
    if s != [] && forall i :: 0 <= i < |s| ==> IsDigit(s[i])
    then Some(Timestamp(NumeralValue(s)))
    else None
  }

  lemma {:induction false} NumeralRoundTrip(n: nat)
    ensures NumeralValue(Numeral(n)) == n
    decreases n
  {
    var s := Numeral(n);
    if n >= 10 {
      NumeralRoundTrip(n / 10);
      assert s[..|s| - 1] == Numeral(n / 10);
    }
  }

  /** Parsing the text form of a timestamp gives that timestamp back. */
  lemma IsoRoundTrip(t: Timestamp)
    ensures FromIsoFormat(IsoFormat(t)) == Some(t)
  {
    NumeralRoundTrip(t.ticks);
  }

  /** Distinct timestamps have distinct text forms. */
  lemma IsoFormatInjective(t: Timestamp, u: Timestamp)
    ensures IsoFormat(t) == IsoFormat(u) ==> t == u
  {
    IsoRoundTrip(t);
    IsoRoundTrip(u);
  }
}
