/**
 * The inbound MQTT message of pyais.py once its JSON payload has been decoded:
 * the three fields `on_message` reads (`mmsi`, `name`, `type`), Python's
 * truthiness tests on them, and `str(mmsi)`, the key of the name cache.
 */
module Payloads {
  import opened Wrappers

  /** An MMSI as it arrives in the JSON object: a number or a string. */
  datatype Mmsi = Num(n: int) | Text(s: string)

  /**
   * A payload after `json.loads` and the three `data.get` calls. `Malformed`
   * covers every payload whose decoding or field access raises (not UTF-8,
   * not JSON, JSON that is not an object); the `except` clauses swallow it.
   * A field that is absent or JSON null is `None`.
   */
  datatype Payload =
    | Malformed
    | Fields(mmsi: Option<Mmsi>, name: Option<string>, msgType: Option<int>)

  /** Python truthiness of an MMSI value: `0` and `""` are false. */
  predicate MmsiTruthy(m: Mmsi) {
    match m
    case Num(n) => n != 0
    case Text(s) => s != ""
  }

  /** The `if not mmsi` test passes: the field is present and truthy. */
  predicate HasMmsi(m: Option<Mmsi>) {
    m.Some? && MmsiTruthy(m.value)
  }

  /** Python truthiness of an optional string: `None` and `""` are false. */
  predicate Truthy(s: Option<string>) {
    s.Some? && s.value != ""
  }

  function DigitChar(d: nat): char
    requires d < 10
  {
    "0123456789"[d]
  }

  /** The decimal digits of a natural number, most significant first. */
  function Digits(n: nat): (r: string)
    ensures |r| >= 1
    ensures |r| == 1 <==> n < 10
    ensures forall i :: 0 <= i < |r| ==> '0' <= r[i] <= '9'
    decreases n
  {
    if n < 10 then [DigitChar(n)] else Digits(n / 10) + [DigitChar(n % 10)]
  }

  /** Python's `str` of an integer. */
  function Decimal(i: int): (r: string)
    ensures r != ""
    ensures r[0] == '-' <==> i < 0
  {
    if i < 0 then "-" + Digits(-i) else Digits(i)
  }

  /** `str(mmsi)`: the key under which the name cache stores a vessel's name. */
  function Key(m: Mmsi): string {
    match m
    case Num(n) => Decimal(n)
    case Text(s) => s
  }

  lemma DigitCharInjective(a: nat, b: nat)
    requires a < 10 && b < 10 && DigitChar(a) == DigitChar(b)
    ensures a == b
  {
  }

  /** Distinct natural numbers have distinct decimal spellings. */
  lemma {:induction false} DigitsInjective(a: nat, b: nat)
    requires Digits(a) == Digits(b)
    ensures a == b
  {
    if a < 10 && b < 10 {
      DigitCharInjective(a, b);
    } else if 10 <= a && 10 <= b {
      var da, db := Digits(a), Digits(b);
      assert da[..|da| - 1] == Digits(a / 10);
      assert db[..|db| - 1] == Digits(b / 10);
      DigitsInjective(a / 10, b / 10);
      assert da[|da| - 1] == DigitChar(a % 10);
      assert db[|db| - 1] == DigitChar(b % 10);
      DigitCharInjective(a % 10, b % 10);
    }
  }

  /** Distinct numeric MMSIs never share a cache key. */
  lemma NumericKeysInjective(a: int, b: int)
    requires Key(Num(a)) == Key(Num(b))
    ensures a == b
  {
    if a < 0 && b < 0 {
      assert Digits(-a) == Decimal(a)[1..];
      assert Digits(-b) == Decimal(b)[1..];
      DigitsInjective(-a, -b);
    } else if a >= 0 && b >= 0 {
      DigitsInjective(a, b);
    }
  }

  /**
   * A numeric MMSI and the string spelling the same digits are different
   * values (so the window tracks them as two vessels) but share one cache key.
   */
  lemma KeyConflatesNumberAndText(n: int)
    ensures Num(n) != Text(Decimal(n))
    ensures Key(Num(n)) == Key(Text(Decimal(n)))
  {
  }

}
