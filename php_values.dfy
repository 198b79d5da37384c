/**
 * The few PHP value rules the client depends on: truthiness, the `%d` and
 * `%s` conversions, and the left-biased array union `$options += $defaults`
 * that every command uses to fill in defaults.
 */
module PhpValues {
  import opened Decimal

  /** A scalar PHP value as it appears in configuration and option arrays. */
  datatype Value = Null | Bool(b: bool) | Int(i: int) | Str(s: string)

  /** An option or configuration array with string keys. */
  type Options = map<string, Value>

  /** PHP's conversion to boolean, as used by `if ($x)`. */
  predicate Truthy(v: Value) {
    match v
    case Null => false
    case Bool(b) => b
    case Int(i) => i != 0
    case Str(s) => s != "" && s != "0"
  }

  /**
   * PHP 7's loose `$x == 'word'` against a literal that starts with a
   * letter: a boolean compares with the word's truthiness, an integer with
   * the word's integer value 0, null with the empty string.
   */
  predicate LooseEqualsWord(v: Value, w: string)
    requires |w| > 0 && 'a' <= w[0] <= 'z'
  {
    match v
    case Null => false
    case Bool(b) => b
    case Int(i) => i == 0
    case Str(s) => s == w
  }

  /** `isset($x)`: every value except null. */
  predicate IsSet(v: Value) { !v.Null? }

  /**
   * `(integer) $x` in PHP 7, which is also what `sprintf('%d', $x)` prints;
   * a string is read by `LeadingInt`.
   */
  function IntOf(v: Value): int {
    match v
    case Null => 0
    case Bool(b) => if b then 1 else 0
    case Int(i) => i
    case Str(s) => LeadingInt(s)
  }

  /** `(string) $x`, which is also what `sprintf('%s', $x)` prints. */
  function StrOf(v: Value): string {
    match v
    case Null => ""
    case Bool(b) => if b then "1" else ""
    case Int(i) => FormatInt(i)
    case Str(s) => s
  }

  /** Casting any value to a string and that string to an integer gives the value's integer. */
  lemma IntOfStrOf(v: Value)
    ensures IntOf(Str(StrOf(v))) == IntOf(v)
  {
    match v
    case Null =>
      assert LeadingInt("") == 0;
    case Bool(b) =>
      if b {
        assert FormatNat(1) == "1" && FormatInt(1) == "1";
        LeadingIntFormat(1, []);
        assert "1" + [] == "1";
      } else {
        assert LeadingInt("") == 0;
      }
    case Int(i) =>
      LeadingIntFormat(i, []);
      assert FormatInt(i) + [] == FormatInt(i);
    case Str(s) =>
  }

  /** Casting to a string keeps a value's truthiness: only null, false and 0 become "" or "0". */
  lemma TruthyStrOf(v: Value)
    ensures Truthy(Str(StrOf(v))) == Truthy(v)
  {
    if v.Int? {
      var i := v.i;
      if i == 0 {
        assert FormatInt(0) == "0";
      }
    } else if v.Bool? && v.b {
      assert FormatNat(1) == "1";
    }
  }

  /**
   * PHP 7's comparison rules for `$x == 'word'`: a boolean compares with the
   * word cast to boolean, an integer with the word cast to integer, null
   * with the word as the empty string, a string by its characters.
   */
  lemma LooseEqualsWordRules(v: Value, w: string)
    requires |w| > 0 && 'a' <= w[0] <= 'z'
    ensures v.Null? ==> (LooseEqualsWord(v, w) <==> StrOf(v) == w)
    ensures v.Bool? ==> (LooseEqualsWord(v, w) <==> v.b == Truthy(Str(w)))
    ensures v.Int? ==> (LooseEqualsWord(v, w) <==> v.i == IntOf(Str(w)))
    ensures v.Str? ==> (LooseEqualsWord(v, w) <==> v.s == w)
  {
    assert w != "0";
    assert !IsBlank(w[0]) && !IsDigit(w[0]) && w[0] != '.';
    assert BlankRun(w) == 0 && DigitRun(w) == 0;
    assert w[0..] == w;
  }

  /**
   * The default Lithium's base object merges under every configuration:
   * its constructor calls `_init` (which copies the `_autoConfig` keys and
   * lets adapters connect) unless `init` is falsy.
   */
  const ObjectDefaults: Options := map["init" := Bool(true)]

  /** `$array[$key]`, where a missing key reads as null. */
  function Get(m: Options, key: string): (v: Value)
    ensures key !in m ==> v == Null
  {
    if key in m then m[key] else Null
  }

  /**
   * `$options += $defaults`: every key of either array, and on a key both
   * have, the left (user-supplied) value wins.
   */
  function Merge(options: Options, defaults: Options): (r: Options)
    ensures r.Keys == options.Keys + defaults.Keys
    ensures forall k :: k in options ==> r[k] == options[k]
    ensures forall k :: k in defaults && k !in options ==> r[k] == defaults[k]
  {
    defaults + options
  }

  /** Merging defaults a second time adds nothing once their keys are present. */
  lemma MergeAbsorbs(options: Options, defaults: Options)
    requires defaults.Keys <= options.Keys
    ensures Merge(options, defaults) == options
  {
    var r := Merge(options, defaults);
    assert r.Keys == options.Keys;
    assert forall k :: k in r ==> r[k] == options[k];
  }

  /** Merging twice is the same as one merge with the union of the defaults, left first. */
  lemma MergeAssociates(options: Options, d1: Options, d2: Options)
    ensures Merge(Merge(options, d1), d2) == Merge(options, Merge(d1, d2))
  {
    var a := Merge(Merge(options, d1), d2);
    var b := Merge(options, Merge(d1, d2));
    assert a.Keys == b.Keys;
    forall k | k in a ensures a[k] == b[k] {
    }
  }
}
