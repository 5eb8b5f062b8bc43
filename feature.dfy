/**
 * The typed features an instrumented function attaches to its start event
 * (`feature<T>` and `make_feature` in custom_instr.h), as a closed tagged
 * union over the four element types the tool supports.
 */
module Feature {
  import opened Wrappers
  import opened Text

  type Int32 = x: int | Int32Min <= x <= Int32Max
  type Int64 = x: int | Int64Min <= x <= Int64Max
  /**
   * The integral floating-point values that `operator<<` prints digit for
   * digit at its default precision of six significant digits.
   */
  type PrintableWhole = x: int | -999999 <= x <= 999999

  datatype Value =
    | IntValue(i: Int32)
    | LongValue(l: Int64)
    | FloatValue(f: PrintableWhole)
    | DoubleValue(d: PrintableWhole)

  datatype Feature = Feature(name: string, value: Value)

  /** The number a value stands for. */
  function Number(v: Value): int {
    match v
    case IntValue(i) => i
    case LongValue(l) => l
    case FloatValue(f) => f
    case DoubleValue(d) => d
  }

  /** `make_feature(n, v)`: a feature named `n` holding `v`. */
  function MakeFeature(n: string, v: Value): (f: Feature)
    ensures f.name == n && f.value == v
  {
    Feature(n, v)
  }

  /** What `operator<<` writes for the value. */
  function RenderValue(v: Value): string {
    IntToString(Number(v))
  }

  /** `feature<T>::print()`: the name, `=`, and the value as written by a stream. */
  function Print(f: Feature): string {
    f.name + "=" + RenderValue(f.value)
  }

  /**
   * Print is invertible: when the name holds no `=`, the text before the
   * first `=` is the name and what follows it reads back as the value.
   */
  lemma PrintRoundTrip(f: Feature)
    requires '=' !in f.name
    ensures var p := Print(f);
      Find(p, "=") == Some(|f.name|) && p[..|f.name|] == f.name &&
      ParseLeadingInt(p[|f.name| + 1..]) == Some(Number(f.value))
  {
    var p := Print(f);
    assert MatchAt(p, "=", |f.name|);
    FindCharSome(p, '=');
    assert p[..|f.name|] == f.name;
    assert p[|f.name| + 1..] == RenderValue(f.value);
    ParseIntToString(Number(f.value));
  }

  /**
   * Print adds to the name only `=`, digits and a minus sign: any other
   * character missing from the name is missing from the printed text.
   */
  lemma PrintAvoids(f: Feature, c: char)
    requires c !in f.name && c != '=' && c != '-' && !IsDigit(c)
    ensures c !in Print(f)
  {
    IntToStringChars(Number(f.value));
  }

  /**
   * Print writes no type: its output holds no `&` (when the name holds
   * none), so it does not have the `name=type&value` shape.
   */
  lemma PrintHasNoTypeTag(f: Feature)
    requires '&' !in f.name
    ensures '&' !in Print(f)
  {
    PrintAvoids(f, '&');
  }
}
