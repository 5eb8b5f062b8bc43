/**
 * The C++ standard-library string operations the tools rely on:
 * `std::string::find`, `substr` with `size_t` arguments, splitting a line on
 * single spaces, `std::stoi` / `std::stol`, and `std::to_string`.
 * A `string` here stands for a byte string; characters are bytes.
 */
module Text {
  import opened Wrappers

  /** 2^64: `size_t` arithmetic on the positions returned by `find` wraps modulo this. */
  const SizeMod: int := 0x1_0000_0000_0000_0000
  /** `std::string::npos`, the largest `size_t`. */
  const Npos: int := SizeMod - 1

  const Int32Min: int := -0x8000_0000
  const Int32Max: int := 0x7fff_ffff
  const Int64Min: int := -0x8000_0000_0000_0000
  const Int64Max: int := 0x7fff_ffff_ffff_ffff

  // ---------------------------------------------------------------- find

  /** `sub` occurs in `s` starting at index `i`. */
  predicate MatchAt(s: string, sub: string, i: nat) {
    i + |sub| <= |s| && s[i..i + |sub|] == sub
  }

  /** The first occurrence of `sub` in `s` at or after `i`. */
  function FindFrom(s: string, sub: string, i: nat): (r: Option<nat>)
    ensures r.Some? ==> i <= r.value && MatchAt(s, sub, r.value)
    ensures r.Some? ==> forall j :: i <= j < r.value ==> !MatchAt(s, sub, j)
    ensures r.None? ==> forall j :: i <= j ==> !MatchAt(s, sub, j)
    decreases |s| - i
  {
    if i + |sub| > |s| then None
    else if s[i..i + |sub|] == sub then Some(i)
    else FindFrom(s, sub, i + 1)
  }

  /** `s.find(sub)`: the first index at which `sub` occurs, if any. */
  function Find(s: string, sub: string): Option<nat> {
    FindFrom(s, sub, 0)
  }

  /** `s.find(sub) != string::npos`. */
  predicate Contains(s: string, sub: string) {
    Find(s, sub).Some?
  }

  lemma ContainsIff(s: string, sub: string)
    ensures Contains(s, sub) <==> exists i: nat :: MatchAt(s, sub, i)
  {
    if !Contains(s, sub) {
      forall i: nat ensures !MatchAt(s, sub, i) {
        assert 0 <= i;
      }
    }
  }

  /** The position `find` returns as a `size_t`: the index, or npos. */
  function FindPos(s: string, sub: string): (p: int)
    ensures 0 <= p < SizeMod
    ensures p == Npos <==> !Contains(s, sub)
    ensures p < Npos ==> p + |sub| <= |s|
  {
    match Find(s, sub)
    case Some(i) => assert i + |sub| <= |s|; if i < Npos then i else Npos - 1
    case None => Npos
  }

  /**
   * `s.substr(pos, count)` for `size_t` arguments: throws `out_of_range`
   * (here None) when `pos > size()`, and otherwise takes at most `count`
   * characters.
   */
  function Substr(s: string, pos: int, count: int): (r: Option<string>)
    requires 0 <= pos && 0 <= count
    ensures r.Some? <==> pos <= |s|
    ensures r.Some? ==> |r.value| == (if count < |s| - pos then count else |s| - pos)
    ensures r.Some? ==> forall k :: 0 <= k < |r.value| ==> r.value[k] == s[pos + k]
  {
    if pos > |s| then None
    else if count < |s| - pos then Some(s[pos..pos + count])
    else Some(s[pos..])
  }

  // ---------------------------------------------------------------- splitting

  /**
   * The tokens of `s` between the separators `sep`, as the source's loop
   * `while ((pos = line.find(" ")) != npos) { push(substr(0, pos)); erase(0, pos + 1); }`
   * followed by pushing the remainder produces them: empty tokens included.
   */
  function Split(s: string, sep: char): (r: seq<string>)
    ensures |r| >= 1
    decreases |s|
  {
    match Find(s, [sep])
    case None => [s]
    case Some(i) => [s[..i]] + Split(s[i + 1..], sep)
  }

  /** The inverse of Split: the tokens joined by `sep`. */
  function Join(ts: seq<string>, sep: char): string
    requires |ts| >= 1
  {
    if |ts| == 1 then ts[0] else ts[0] + [sep] + Join(ts[1..], sep)
  }

  lemma FindCharNone(s: string, c: char)
    ensures Find(s, [c]).None? <==> c !in s
  {
    var r := Find(s, [c]);
    if r.Some? {
      assert s[r.value..r.value + 1] == [c];
      assert s[r.value] in s;
    }
    if c in s {
      var i :| 0 <= i < |s| && s[i] == c;
      assert MatchAt(s, [c], i);
    }
  }

  lemma FindCharSome(s: string, c: char)
    requires Find(s, [c]).Some?
    ensures var i := Find(s, [c]).value; i < |s| && s[i] == c && c !in s[..i]
  {
    var i := Find(s, [c]).value;
    assert s[i..i + 1] == [c];
    if c in s[..i] {
      var j :| 0 <= j < i && s[j] == c;
      assert s[j..j + 1] == [c];
      assert MatchAt(s, [c], j);
    }
  }

  /** Joining the tokens restores the line; no token contains the separator. */
  lemma {:induction false} SplitJoin(s: string, sep: char)
    ensures Join(Split(s, sep), sep) == s
    ensures forall k :: 0 <= k < |Split(s, sep)| ==> sep !in Split(s, sep)[k]
    decreases |s|
  {
    match Find(s, [sep])
    case None =>
      FindCharNone(s, sep);
    case Some(i) =>
      FindCharSome(s, sep);
      SplitJoin(s[i + 1..], sep);
      assert s == s[..i] + [sep] + s[i + 1..];
      var t := Split(s[i + 1..], sep);
      assert Split(s, sep) == [s[..i]] + t;
      forall k | 0 <= k < |Split(s, sep)| ensures sep !in Split(s, sep)[k] {
        if k > 0 { assert Split(s, sep)[k] == t[k - 1]; }
      }
  }

  /** A line without the separator is a single token. */
  lemma SplitNoSep(s: string, sep: char)
    requires sep !in s
    ensures Split(s, sep) == [s]
  {
    FindCharNone(s, sep);
  }

  /** Splitting `a + sep + b`, where `a` has no separator, gives `a` followed by the tokens of `b`. */
  lemma SplitCons(a: string, sep: char, b: string)
    requires sep !in a
    ensures Split(a + [sep] + b, sep) == [a] + Split(b, sep)
  {
    var s := a + [sep] + b;
    assert MatchAt(s, [sep], |a|);
    var i := Find(s, [sep]).value;
    FindCharSome(s, sep);
    assert i == |a|;
    assert s[..i] == a;
    assert s[i + 1..] == b;
  }

  /** Split inverts Join when no token contains the separator. */
  lemma {:induction false} JoinSplit(ts: seq<string>, sep: char)
    requires |ts| >= 1
    requires forall k :: 0 <= k < |ts| ==> sep !in ts[k]
    ensures Split(Join(ts, sep), sep) == ts
    decreases |ts|
  {
    if |ts| == 1 {
      SplitNoSep(ts[0], sep);
    } else {
      JoinSplit(ts[1..], sep);
      SplitCons(ts[0], sep, Join(ts[1..], sep));
    }
  }

  /** Joining one more token appends the separator and the token. */
  lemma {:induction false} JoinSnoc(ts: seq<string>, t: string, sep: char)
    requires |ts| >= 1
    ensures Join(ts + [t], sep) == Join(ts, sep) + [sep] + t
    decreases |ts|
  {
    if |ts| > 1 {
      JoinSnoc(ts[1..], t, sep);
      assert (ts + [t])[1..] == ts[1..] + [t];
    }
  }

  lemma AppendAssoc<T>(a: seq<T>, b: seq<T>, c: seq<T>)
    ensures (a + b) + c == a + (b + c)
  {
  }

  /** One more element of `s` after a prefix `a`. */
  lemma PrefixStep<T>(a: seq<T>, s: seq<T>, j: nat)
    requires j < |s|
    ensures a + s[..j + 1] == (a + s[..j]) + [s[j]]
  {
    assert s[..j + 1] == s[..j] + [s[j]];
  }

  lemma SplitStep(s: string, sep: char, i: nat)
    requires Find(s, [sep]) == Some(i)
    ensures i < |s| && Split(s, sep) == [s[..i]] + Split(s[i + 1..], sep)
  {
  }

  /**
   * The source's tokenising loop without its final push: the tokens up to
   * the last separator (`head`) and what follows it (`rest`).
   */
  method SplitOnSpaces(line: string) returns (head: seq<string>, rest: string)
    ensures head + [rest] == Split(line, ' ')
  {
    head, rest := [], line;
    while Find(rest, " ").Some?
      invariant head + Split(rest, ' ') == Split(line, ' ')
      decreases |rest|
    {
      var pos := Find(rest, " ").value;
      SplitStep(rest, ' ', pos);
      head := head + [rest[..pos]];
      rest := rest[pos + 1..];
    }
  }

  /** The full tokenising loop: `head` and then the remainder pushed. */
  method Tokenize(line: string) returns (tokens: seq<string>)
    ensures tokens == Split(line, ' ')
  {
    var head, rest := SplitOnSpaces(line);
    tokens := head + [rest];
  }

  /** `line.substr(0, line.find(" "))`: the text before the first space, or the whole line. */
  function FirstToken(line: string): (t: string)
    ensures |t| <= |line|
  {
    match Find(line, " ")
    case Some(i) => line[..i]
    case None => line
  }

  /** The first token is the first field of the line split on spaces. */
  lemma FirstTokenSplit(line: string)
    ensures FirstToken(line) == Split(line, ' ')[0]
  {
  }

  // ---------------------------------------------------------------- numbers

  predicate IsDigit(c: char) { '0' <= c <= '9' }

  /** The characters C's `isspace` accepts in the default locale. */
  predicate IsSpace(c: char) {
    c == ' ' || c == '\t' || c == '\n' || c == '\r' || c == '\U{B}' || c == '\U{C}'
  }

  function DigitValue(c: char): nat
    requires IsDigit(c)
  {
    c as int - '0' as int
  }

  /** The number a run of decimal digits denotes. */
  function DigitsValue(ds: string): (v: nat)
    requires forall k :: 0 <= k < |ds| ==> IsDigit(ds[k])
  {
    if ds == [] then 0 else 10 * DigitsValue(ds[..|ds| - 1]) + DigitValue(ds[|ds| - 1])
  }

  /** The number of leading characters of `s` satisfying IsSpace. */
  function SpacePrefix(s: string): (n: nat)
    ensures n <= |s|
  {
    if s != [] && IsSpace(s[0]) then 1 + SpacePrefix(s[1..]) else 0
  }

  /** The number of leading decimal digits of `s`. */
  function DigitPrefix(s: string): (n: nat)
    ensures n <= |s|
    ensures forall k :: 0 <= k < n ==> IsDigit(s[k])
  {
    if s != [] && IsDigit(s[0]) then 1 + DigitPrefix(s[1..]) else 0
  }

  /** The longest leading run of decimal digits of `u` as a number; None when `u` starts with no digit. */
  function ParseDigits(u: string): (r: Option<nat>)
    ensures r.Some? <==> |u| > 0 && IsDigit(u[0])
  {
    var n := DigitPrefix(u);
    if n == 0 then None else Some(DigitsValue(u[..n]))
  }

  /** An optional sign followed by digits. */
  function ParseSigned(t: string): Option<int> {
    if |t| > 0 && t[0] == '-' then
      (match ParseDigits(t[1..]) case Some(v) => Some(-(v as int)) case None => None)
    else if |t| > 0 && t[0] == '+' then ParseDigits(t[1..])
    else ParseDigits(t)
  }

  /**
   * `strtol(s, _, 10)` as `stoi`/`stol` use it: leading white space, an
   * optional sign, then the longest run of digits; None when there is no
   * digit (they throw `invalid_argument`). Characters after the digits are
   * ignored.
   */
  function ParseLeadingInt(s: string): Option<int> {
    ParseSigned(s[SpacePrefix(s)..])
  }

  /** `std::stoi`: the parsed value, which must fit in a 32-bit `int` (else `out_of_range`). */
  function Stoi(s: string): (r: Option<int>)
    ensures r.Some? ==> Int32Min <= r.value <= Int32Max
  {
    match ParseLeadingInt(s)
    case Some(v) => if Int32Min <= v <= Int32Max then Some(v) else None
    case None => None
  }

  /** `std::stol` on a 64-bit `long`. */
  function Stol(s: string): (r: Option<int>)
    ensures r.Some? ==> Int64Min <= r.value <= Int64Max
  {
    match ParseLeadingInt(s)
    case Some(v) => if Int64Min <= v <= Int64Max then Some(v) else None
    case None => None
  }

  /** The decimal digits of a natural number, most significant first. */
  function NatToString(n: nat): (s: string)
    ensures |s| >= 1
    ensures forall k :: 0 <= k < |s| ==> IsDigit(s[k])
  {
    var d := ['0' + (n % 10) as char];
    if n < 10 then d else NatToString(n / 10) + d
  }

  /** `std::to_string` and `operator<<` on an integer. */
  function IntToString(n: int): string {
    if n < 0 then "-" + NatToString(-n) else NatToString(n)
  }

  lemma {:induction false} DigitsOfNat(n: nat)
    ensures DigitsValue(NatToString(n)) == n
  {
    var s := NatToString(n);
    if n >= 10 {
      DigitsOfNat(n / 10);
      assert s[..|s| - 1] == NatToString(n / 10);
    }
  }

  /** A rendered integer consists of digits and at most a leading minus sign. */
  lemma IntToStringChars(n: int)
    ensures |IntToString(n)| >= 1
    ensures forall c :: c in IntToString(n) ==> IsDigit(c) || c == '-'
    ensures ' ' !in IntToString(n) && '\n' !in IntToString(n)
  {
  }

  lemma {:induction false} DigitPrefixAll(s: string)
    requires forall k :: 0 <= k < |s| ==> IsDigit(s[k])
    ensures DigitPrefix(s) == |s|
  {
    if s != [] {
      DigitPrefixAll(s[1..]);
    }
  }

  /** Parsing the rendering of an integer gives the integer back. */
  lemma ParseIntToString(n: int)
    ensures ParseLeadingInt(IntToString(n)) == Some(n)
  {
    var s := IntToString(n);
    var m: nat := if n < 0 then -n else n;
    var ds := NatToString(m);
    assert SpacePrefix(s) == 0;
    assert s[0..] == s;
    var u := if n < 0 then s[1..] else s;
    assert u == ds;
    DigitsOfNat(m);
    DigitPrefixAll(ds);
    assert ds[..|ds|] == ds;
  }

  /** `stoi(to_string(n)) == n` for every 32-bit `n`. */
  lemma StoiIntToString(n: int)
    requires Int32Min <= n <= Int32Max
    ensures Stoi(IntToString(n)) == Some(n)
  {
    ParseIntToString(n);
  }

  /** `stol(to_string(n)) == n` for every 64-bit `n`. */
  lemma StolIntToString(n: int)
    requires Int64Min <= n <= Int64Max
    ensures Stol(IntToString(n)) == Some(n)
  {
    ParseIntToString(n);
  }
}
