/**
 * `encode_perf_trace` of trace_merge.cc: the binary trace of one
 * function. Its specification is `LayoutOf` (what the file says: the
 * interned feature names, the sorted type table, one record per sample)
 * followed by `TraceFormat.Serialize` (how it is written); the imperative
 * encoder in module EncoderRun writes the same bytes through an output
 * stream with placeholder counts patched in place.
 */
module Encoder {
  import opened Wrappers
  import opened Text
  import opened Bytes
  import opened TraceFormat
  import C = Correlator

  datatype EncodeError =
    | UnknownType(func: string, ftype: string)
    | BadValue(func: string, ftype: string, value: string)
    | CountMismatch(func: string)

  // ---------------------------------------------------------------- feature values

  /**
   * `stod`/`stof` of a decimal text followed by the conversion to
   * `int64_t`: leading white space, an optional sign, digits with an
   * optional fraction (at least one digit in all), truncated toward zero.
   * None when there is no digit (the call throws) or when the truncated
   * value does not fit in 64 bits (the conversion is undefined).
   */
  function Stod(s: string): Option<int> {
    var t := s[SpacePrefix(s)..];
    var whole :- if |t| > 0 && (t[0] == '-' || t[0] == '+') then DecimalWhole(t[1..]) else DecimalWhole(t);
    var v: int := if |t| > 0 && t[0] == '-' then -(whole as int) else whole;
    if Int64Min <= v <= Int64Max then Some(v) else None
  }

  /** The integral part of an unsigned decimal such as `12`, `12.5` or `.5`; None without a digit. */
  function DecimalWhole(u: string): Option<nat> {
    var d := DigitPrefix(u);
    var frac := if d < |u| && u[d] == '.' then DigitPrefix(u[d + 1..]) else 0;
    if d + frac == 0 then None else Some(DigitsValue(u[..d]))
  }

  /** The `int64_t v` a feature's text becomes, chosen by its type name in the source's order. */
  datatype PrimType = DoubleType | IntType | FloatType | LongType | OtherType

  function TypeOf(t: string): PrimType {
    if t == "double" then DoubleType
    else if t == "int" then IntType
    else if t == "float" then FloatType
    else if t == "long" then LongType
    else OtherType
  }

  function Coerce(f: C.ParsedFeature, func: string): (r: Result<int, EncodeError>)
    ensures r.Success? ==> Int64Min <= r.value <= Int64Max
  {
    match TypeOf(f.ftype)
    case DoubleType => Need(Stod(f.value), BadValue(func, f.ftype, f.value))
    case IntType => Need(Stoi(f.value), BadValue(func, f.ftype, f.value))
    case FloatType => Need(Stod(f.value), BadValue(func, f.ftype, f.value))
    case LongType => Need(Stol(f.value), BadValue(func, f.ftype, f.value))
    case OtherType => Failure(UnknownType(func, f.ftype))
  }

  /** A conversion of feature texts to the encoded `int64_t`. */
  type Coercer = C.ParsedFeature -> Result<int, EncodeError>

  /** The conversion of the features of function `func`'s samples. */
  function Coercion(func: string): Coercer {
    f => Coerce(f, func)
  }

  predicate KnownType(t: string) {
    t == "double" || t == "int" || t == "float" || t == "long"
  }

  /** Only the four primitive type names are encoded; any other is the fatal "unknown feature type". */
  lemma CoerceTypes(f: C.ParsedFeature, func: string)
    ensures Coerce(f, func) == Failure(UnknownType(func, f.ftype)) <==> !KnownType(f.ftype)
    ensures KnownType(f.ftype) && Coerce(f, func).Failure? ==> Coerce(f, func) == Failure(BadValue(func, f.ftype, f.value))
  {
  }

  /** An `int` feature printed in decimal is encoded as that integer, over the whole 32-bit range. */
  lemma CoerceInts(name: string, n: int, func: string)
    requires Int32Min <= n <= Int32Max
    ensures Coerce(C.ParsedFeature(name, "int", IntToString(n)), func) == Success(n)
  {
    StoiIntToString(n);
  }

  /** A `long` feature printed in decimal is encoded as that integer, over the whole 64-bit range. */
  lemma CoerceLongs(name: string, n: int, func: string)
    requires Int64Min <= n <= Int64Max
    ensures Coerce(C.ParsedFeature(name, "long", IntToString(n)), func) == Success(n)
  {
    StolIntToString(n);
  }

  /** A floating-point text with a fraction is cut to its integral part, toward zero. */
  lemma StodTruncates(whole: nat, frac: string, neg: bool)
    requires whole <= Int64Max
    requires forall k :: 0 <= k < |frac| ==> IsDigit(frac[k])
    ensures Stod((if neg then "-" else "") + NatToString(whole) + "." + frac) == Some(if neg then -(whole as int) else whole)
  {
    var ds := NatToString(whole);
    var u := ds + "." + frac;
    var sign := if neg then "-" else "";
    assert sign + ds + "." + frac == sign + u;
    WholeOf(ds, frac);
    DigitsOfNat(whole);
    assert u[0] == ds[0];
    if neg {
      StodNegative(u, whole);
    } else {
      assert sign + u == u;
      StodPositive(u, whole);
    }
  }

  lemma StodPositive(u: string, w: nat)
    requires u != [] && IsDigit(u[0]) && DecimalWhole(u) == Some(w) && w <= Int64Max
    ensures Stod(u) == Some(w)
  {
    assert SpacePrefix(u) == 0;
    assert u[0..] == u;
  }

  lemma StodNegative(u: string, w: nat)
    requires u != [] && IsDigit(u[0]) && DecimalWhole(u) == Some(w) && w <= Int64Max
    ensures Stod("-" + u) == Some(-(w as int))
  {
    var s := "-" + u;
    assert SpacePrefix(s) == 0;
    assert s[0..] == s && s[1..] == u;
  }

  lemma WholeOf(ds: string, frac: string)
    requires |ds| > 0 && forall k :: 0 <= k < |ds| ==> IsDigit(ds[k])
    ensures DecimalWhole(ds + "." + frac) == Some(DigitsValue(ds))
  {
    var u := ds + "." + frac;
    assert u == ds + ("." + frac);
    DigitPrefixStops(ds, "." + frac);
    assert u[..|ds|] == ds;
  }

  lemma {:induction false} DigitPrefixStops(ds: string, rest: string)
    requires forall k :: 0 <= k < |ds| ==> IsDigit(ds[k])
    requires rest != [] && !IsDigit(rest[0])
    ensures DigitPrefix(ds + rest) == |ds|
    decreases |ds|
  {
    if ds != [] {
      assert (ds + rest)[1..] == ds[1..] + rest;
      DigitPrefixStops(ds[1..], rest);
    } else {
      assert ds + rest == rest;
    }
  }

  // ---------------------------------------------------------------- the type set

  /** `std::string`'s `operator<`: lexicographic by character. */
  predicate Less(a: string, b: string)
    decreases |a|
  {
    if a == [] then b != []
    else b != [] && (if a[0] == b[0] then Less(a[1..], b[1..]) else a[0] < b[0])
  }

  lemma {:induction false} LessIrreflexive(a: string)
    ensures !Less(a, a)
    decreases |a|
  {
    if a != [] {
      LessIrreflexive(a[1..]);
    }
  }

  lemma {:induction false} LessTotal(a: string, b: string)
    requires a != b
    ensures Less(a, b) || Less(b, a)
    decreases |a|
  {
    if a != [] && b != [] && a[0] == b[0] {
      assert a == [a[0]] + a[1..] && b == [b[0]] + b[1..];
      LessTotal(a[1..], b[1..]);
    }
  }

  lemma {:induction false} LessTransitive(a: string, b: string, c: string)
    requires Less(a, b) && Less(b, c)
    ensures Less(a, c)
    decreases |a|
  {
    if a != [] && a[0] == b[0] && b[0] == c[0] {
      LessTransitive(a[1..], b[1..], c[1..]);
    }
  }

  /** Strictly increasing, as a `std::set<string>` iterates. */
  predicate Sorted(ts: seq<string>) {
    forall i, j :: 0 <= i < j < |ts| ==> Less(ts[i], ts[j])
  }

  /** `std::set<string>::insert` on the set held as its iteration order. */
  function InsertSorted(ts: seq<string>, t: string): seq<string> {
    if ts == [] then [t]
    else if t == ts[0] then ts
    else if Less(t, ts[0]) then [t] + ts
    else [ts[0]] + InsertSorted(ts[1..], t)
  }

  lemma {:induction false} InsertSortedSpec(ts: seq<string>, t: string)
    requires Sorted(ts)
    ensures Sorted(InsertSorted(ts, t))
    ensures forall x :: x in InsertSorted(ts, t) <==> x in ts || x == t
  {
    var r := InsertSorted(ts, t);
    if ts == [] || t == ts[0] {
    } else if Less(t, ts[0]) {
      forall i, j | 0 <= i < j < |r|
        ensures Less(r[i], r[j])
      {
        if i == 0 && j > 1 {
          LessTransitive(t, ts[0], ts[j - 1]);
        }
      }
    } else {
      LessTotal(t, ts[0]);
      var rest := InsertSorted(ts[1..], t);
      InsertSortedSpec(ts[1..], t);
      assert r == [ts[0]] + rest;
      forall i, j | 0 <= i < j < |r|
        ensures Less(r[i], r[j])
      {
        if i == 0 {
          assert rest[j - 1] in rest;
          assert rest[j - 1] in ts[1..] || rest[j - 1] == t;
        } else {
          assert r[i] == rest[i - 1] && r[j] == rest[j - 1];
        }
      }
    }
  }

  // ---------------------------------------------------------------- interning

  /** Every feature of every sample, samples in the given order. */
  function AllFeatures(samples: seq<C.Sample>): seq<C.ParsedFeature> {
    if samples == [] then []
    else AllFeatures(samples[..|samples| - 1]) + samples[|samples| - 1].featureList
  }

  /** The distinct feature names in first-seen order, and the type set. */
  datatype Interned = Interned(names: seq<string>, types: seq<string>)

  /**
   * The name loop of the encoder: a name not seen before is appended, and
   * only then is the type of that feature added to the type set.
   */
  function Intern(fs: seq<C.ParsedFeature>): Interned {
    if fs == [] then Interned([], [])
    else
      var st := Intern(fs[..|fs| - 1]);
      var f := fs[|fs| - 1];
      if f.name in st.names then st else Interned(st.names + [f.name], InsertSorted(st.types, f.ftype))
  }

  /** Feature `k` is the first with its name. */
  predicate FirstOf(fs: seq<C.ParsedFeature>, k: int) {
    0 <= k < |fs| && forall j :: 0 <= j < k ==> fs[j].name != fs[k].name
  }

  predicate Distinct(ss: seq<string>) {
    forall i, j :: 0 <= i < j < |ss| ==> ss[i] != ss[j]
  }

  /** Each feature name is interned exactly once, and nothing else is. */
  lemma {:induction false} InternNames(fs: seq<C.ParsedFeature>)
    ensures Distinct(Intern(fs).names)
    ensures forall n :: n in Intern(fs).names <==> exists k :: 0 <= k < |fs| && fs[k].name == n
  {
    if fs != [] {
      var init := fs[..|fs| - 1];
      InternNames(init);
      forall n | n in Intern(fs).names
        ensures exists k :: 0 <= k < |fs| && fs[k].name == n
      {
        if n in Intern(init).names {
          var k :| 0 <= k < |init| && init[k].name == n;
          assert fs[k].name == n;
        } else {
          assert fs[|fs| - 1].name == n;
        }
      }
      forall n | exists k :: 0 <= k < |fs| && fs[k].name == n
        ensures n in Intern(fs).names
      {
        var k :| 0 <= k < |fs| && fs[k].name == n;
        if k < |init| {
          assert init[k].name == n;
        }
      }
    }
  }

  /** The type set stays sorted, as a `std::set` iterates. */
  lemma {:induction false} InternSorted(fs: seq<C.ParsedFeature>)
    ensures Sorted(Intern(fs).types)
  {
    if fs != [] {
      var init := fs[..|fs| - 1];
      InternSorted(init);
      InsertSortedSpec(Intern(init).types, fs[|fs| - 1].ftype);
    }
  }

  /** The type set holds the type of the first feature with each name. */
  lemma {:induction false} InternFirstTypes(fs: seq<C.ParsedFeature>)
    ensures forall k :: FirstOf(fs, k) ==> fs[k].ftype in Intern(fs).types
  {
    if fs != [] {
      var init := fs[..|fs| - 1];
      var f := fs[|fs| - 1];
      var st := Intern(init);
      InternFirstTypes(init);
      FirstOfInit(fs);
      InternSorted(init);
      InsertSortedSpec(st.types, f.ftype);
      assert forall t :: t in st.types ==> t in Intern(fs).types;
      forall k | FirstOf(fs, k)
        ensures fs[k].ftype in Intern(fs).types
      {
        if k < |init| {
          assert FirstOf(init, k) && init[k] == fs[k];
        } else if f.name in st.names {
          InternNames(init);
        }
      }
    }
  }

  /** The type set holds nothing but the types of first features. */
  lemma {:induction false} InternOnlyTypes(fs: seq<C.ParsedFeature>)
    ensures forall t :: t in Intern(fs).types ==> exists k :: FirstOf(fs, k) && fs[k].ftype == t
  {
    if fs != [] {
      var init := fs[..|fs| - 1];
      var f := fs[|fs| - 1];
      var st := Intern(init);
      InternOnlyTypes(init);
      FirstOfInit(fs);
      if f.name !in st.names {
        InternNames(init);
        assert FirstOf(fs, |fs| - 1) by {
          forall j | 0 <= j < |fs| - 1
            ensures fs[j].name != f.name
          {
            assert init[j].name == fs[j].name;
          }
        }
        InternSorted(init);
        InsertSortedSpec(st.types, f.ftype);
        forall t | t in Intern(fs).types
          ensures exists k :: FirstOf(fs, k) && fs[k].ftype == t
        {
          if t != f.ftype {
            assert t in st.types;
            var k :| FirstOf(init, k) && init[k].ftype == t;
            assert FirstOf(fs, k) && fs[k].ftype == t;
          }
        }
      }
    }
  }

  /** The positions of the features that are the first with their name, in increasing order. */
  function FirstPositions(fs: seq<C.ParsedFeature>): seq<nat> {
    if fs == [] then []
    else FirstPositions(fs[..|fs| - 1]) + (if FirstOf(fs, |fs| - 1) then [|fs| - 1] else [])
  }

  /** The first positions are first occurrences, strictly increasing, and include every first occurrence. */
  lemma {:induction false} FirstPositionsSpec(fs: seq<C.ParsedFeature>)
    ensures forall i :: 0 <= i < |FirstPositions(fs)| ==> FirstOf(fs, FirstPositions(fs)[i])
    ensures forall i, j :: 0 <= i < j < |FirstPositions(fs)| ==> FirstPositions(fs)[i] < FirstPositions(fs)[j]
    ensures forall k :: FirstOf(fs, k) ==> k in FirstPositions(fs)
  {
    if fs != [] {
      var init, n := fs[..|fs| - 1], |fs| - 1;
      var ps := FirstPositions(init);
      FirstPositionsSpec(init);
      FirstOfInit(fs);
      var ps' := FirstPositions(fs);
      assert ps' == ps + (if FirstOf(fs, n) then [n] else []);
      forall i | 0 <= i < |ps|
        ensures ps'[i] == ps[i] < n && FirstOf(fs, ps[i])
      {
        assert FirstOf(init, ps[i]);
      }
      forall k | FirstOf(fs, k)
        ensures k in ps'
      {
        if k < n {
          assert FirstOf(init, k);
        }
      }
    }
  }

  /**
   * The name table lists the names in first-seen order: name `i` is the name
   * of the `i`-th feature (by position) that is the first with its name, and
   * every such feature has its place in the table.
   */
  lemma {:induction false} InternOrder(fs: seq<C.ParsedFeature>)
    ensures |FirstPositions(fs)| == |Intern(fs).names|
    ensures forall i :: 0 <= i < |FirstPositions(fs)| ==>
      FirstOf(fs, FirstPositions(fs)[i]) && fs[FirstPositions(fs)[i]].name == Intern(fs).names[i]
    ensures forall i, j :: 0 <= i < j < |FirstPositions(fs)| ==> FirstPositions(fs)[i] < FirstPositions(fs)[j]
    ensures forall k :: FirstOf(fs, k) ==> k in FirstPositions(fs)
  {
    FirstPositionsSpec(fs);
    if fs != [] {
      var init, n := fs[..|fs| - 1], |fs| - 1;
      var ps, names := FirstPositions(init), Intern(init).names;
      InternOrder(init);
      LastIsFirst(fs);
      var ps', names' := FirstPositions(fs), Intern(fs).names;
      if FirstOf(fs, n) {
        assert ps' == ps + [n] && names' == names + [fs[n].name];
      } else {
        assert ps' == ps && names' == names;
      }
      forall i | 0 <= i < |ps|
        ensures fs[ps'[i]].name == names'[i]
      {
        assert ps'[i] == ps[i] && names'[i] == names[i] && init[ps[i]] == fs[ps[i]];
      }
    }
  }

  /** The last feature is the first with its name exactly when the features before it have not interned that name. */
  lemma LastIsFirst(fs: seq<C.ParsedFeature>)
    requires fs != []
    ensures FirstOf(fs, |fs| - 1) <==> fs[|fs| - 1].name !in Intern(fs[..|fs| - 1]).names
  {
    var init, n := fs[..|fs| - 1], |fs| - 1;
    InternNames(init);
    if fs[n].name in Intern(init).names {
      var k :| 0 <= k < |init| && init[k].name == fs[n].name;
      assert fs[k].name == fs[n].name;
    } else {
      forall j | 0 <= j < n
        ensures fs[j].name != fs[n].name
      {
        assert init[j].name == fs[j].name;
      }
    }
  }

  /** Of two names in the table, the earlier one was first seen earlier. */
  lemma InternFirstSeenOrder(fs: seq<C.ParsedFeature>, i: nat, j: nat)
    requires i < j < |Intern(fs).names|
    ensures exists ki, kj ::
      ki < kj && FirstOf(fs, ki) && FirstOf(fs, kj) && fs[ki].name == Intern(fs).names[i] && fs[kj].name == Intern(fs).names[j]
  {
    InternOrder(fs);
    var ps := FirstPositions(fs);
    assert FirstOf(fs, ps[i]) && FirstOf(fs, ps[j]) && ps[i] < ps[j];
  }

  /** Before the last feature, being the first with a name means the same in `fs` and in its prefix. */
  lemma FirstOfInit(fs: seq<C.ParsedFeature>)
    requires fs != []
    ensures forall k :: 0 <= k < |fs| - 1 ==> (FirstOf(fs, k) <==> FirstOf(fs[..|fs| - 1], k))
  {
    var init := fs[..|fs| - 1];
    forall k | 0 <= k < |init|
      ensures FirstOf(fs, k) <==> FirstOf(init, k)
    {
      assert forall j :: 0 <= j < k ==> fs[j] == init[j];
    }
  }

  // ---------------------------------------------------------------- offsets

  /** `unordered_map::insert`: a key already present keeps its value. */
  function Insert(m: map<string, int>, k: string, v: int): (r: map<string, int>)
    ensures r.Keys == m.Keys + {k} && (k in m ==> r == m)
    ensures forall j :: j in m ==> r[j] == m[j]
    ensures k !in m ==> r[k] == v
  {
    if k in m then m else m[k := v]
  }

  /**
   * The offset of each string of a table written from byte `base` on: the
   * position of its length field. A repeated string keeps its first offset.
   */
  function Offsets(ss: seq<string>, base: int): map<string, int> {
    if ss == [] then map[]
    else Insert(Offsets(ss[..|ss| - 1], base), ss[|ss| - 1], base + |Entries(ss[..|ss| - 1])|)
  }

  lemma {:induction false} OffsetsKeys(ss: seq<string>, base: int)
    ensures forall s :: s in Offsets(ss, base) <==> s in ss
  {
    if ss != [] {
      OffsetsKeys(ss[..|ss| - 1], base);
      assert ss == ss[..|ss| - 1] + [ss[|ss| - 1]];
    }
  }

  /** Each string of a table without repeats sits at `base` plus the size of the entries before it. */
  lemma {:induction false} OffsetsAt(ss: seq<string>, base: int, i: nat)
    requires Distinct(ss) && i < |ss|
    ensures ss[i] in Offsets(ss, base) && Offsets(ss, base)[ss[i]] == base + |Entries(ss[..i])|
  {
    var init := ss[..|ss| - 1];
    OffsetsKeys(init, base);
    if i < |ss| - 1 {
      assert init[i] == ss[i] && init[..i] == ss[..i];
      OffsetsAt(init, base, i);
    } else {
      assert ss[i] !in init;
    }
  }

  /** `operator[]` on an `unordered_map<string, uint64_t>`: a missing key reads as 0. */
  function Lookup(m: map<string, int>, k: string): int {
    if k in m then m[k] else 0
  }

  // ---------------------------------------------------------------- records

  /** The (name offset, type offset, value) triples of a feature list, failing at the first bad value. */
  function TriplesOf(fl: seq<C.ParsedFeature>, noffs: map<string, int>, toffs: map<string, int>, value: Coercer)
    : Result<seq<Triple>, EncodeError>
  {
    if fl == [] then Success([])
    else
      var ts :- TriplesOf(fl[..|fl| - 1], noffs, toffs, value);
      var f := fl[|fl| - 1];
      var v :- value(f);
      Success(ts + [Triple(Lookup(noffs, f.name), Lookup(toffs, f.ftype), v)])
  }

  /**
   * A sample's record with the triples `ts`: the uid as `uint32_t`, and the
   * execution time and the five client-plus-responder sums as `uint64_t`.
   */
  function Figures(s: C.Sample, ts: seq<Triple>): Record {
    Record(
      s.uid % Two32,
      s.execTime % Two64,
      (s.memoryUsage + s.serverMemoryUsage) % Two64,
      (s.serverLockHoldingTime + s.lockHoldingTime) % Two64,
      (s.serverWaitingTime + s.waitingTime) % Two64,
      (s.serverMinPagefault + s.minPagefault) % Two64,
      (s.serverMajPagefault + s.majPagefault) % Two64,
      ts)
  }

  /** A sample's record. The 32-bit feature counter must end equal to the list's size. */
  function RecordOf(s: C.Sample, noffs: map<string, int>, toffs: map<string, int>, func: string): Result<Record, EncodeError> {
    var ts :- TriplesOf(s.featureList, noffs, toffs, Coercion(func));
    if |s.featureList| % Two32 != |s.featureList| then Failure(CountMismatch(func))
    else Success(Figures(s, ts))
  }

  function RecordsOf(samples: seq<C.Sample>, noffs: map<string, int>, toffs: map<string, int>, func: string)
    : Result<seq<Record>, EncodeError>
  {
    if samples == [] then Success([])
    else
      var rs :- RecordsOf(samples[..|samples| - 1], noffs, toffs, func);
      var r :- RecordOf(samples[|samples| - 1], noffs, toffs, func);
      Success(rs + [r])
  }

  /** What the binary trace of function `name` with these samples (in this order) says. */
  function LayoutOf(name: string, samples: seq<C.Sample>): Result<Layout, EncodeError> {
    var st := Intern(AllFeatures(samples));
    var noffs := Offsets(st.names, NamesBase(name));
    var toffs := Offsets(st.types, TypesBase(name, st.names));
    var records :- RecordsOf(samples, noffs, toffs, name);
    Success(Layout(name, st.names, st.types, records))
  }

  /** The bytes of the binary trace. */
  function EncodeSpec(name: string, samples: seq<C.Sample>): Result<seq<Byte>, EncodeError> {
    var l :- LayoutOf(name, samples);
    Success(Serialize(l))
  }

  // ---------------------------------------------------------------- what the trace says

  /** The triple a feature becomes: its name's offset, its type's offset (0 when missing) and its value. */
  predicate TripleFor(t: Triple, f: C.ParsedFeature, noffs: map<string, int>, toffs: map<string, int>, value: Coercer) {
    value(f).Success? && t == Triple(Lookup(noffs, f.name), Lookup(toffs, f.ftype), value(f).value)
  }

  /** Each triple is made from the feature at the same position. */
  lemma TriplesOfEach(fl: seq<C.ParsedFeature>, noffs: map<string, int>, toffs: map<string, int>, value: Coercer)
    requires TriplesOf(fl, noffs, toffs, value).Success?
    ensures var ts := TriplesOf(fl, noffs, toffs, value).value;
      |ts| == |fl| && forall j :: 0 <= j < |fl| ==> TripleFor(ts[j], fl[j], noffs, toffs, value)
  {
    TriplesOfLength(fl, noffs, toffs, value);
    forall j | 0 <= j < |fl|
      ensures TripleFor(TriplesOf(fl, noffs, toffs, value).value[j], fl[j], noffs, toffs, value)
    {
      TriplesOfAt(fl, noffs, toffs, value, j);
    }
  }

  lemma {:induction false} TriplesOfLength(fl: seq<C.ParsedFeature>, noffs: map<string, int>, toffs: map<string, int>, value: Coercer)
    requires TriplesOf(fl, noffs, toffs, value).Success?
    ensures |TriplesOf(fl, noffs, toffs, value).value| == |fl|
  {
    if fl != [] {
      TriplesOfLength(fl[..|fl| - 1], noffs, toffs, value);
    }
  }

  lemma {:induction false} TriplesOfAt(fl: seq<C.ParsedFeature>, noffs: map<string, int>, toffs: map<string, int>, value: Coercer, j: nat)
    requires TriplesOf(fl, noffs, toffs, value).Success? && j < |fl|
    ensures j < |TriplesOf(fl, noffs, toffs, value).value|
    ensures TripleFor(TriplesOf(fl, noffs, toffs, value).value[j], fl[j], noffs, toffs, value)
  {
    var init := fl[..|fl| - 1];
    var ts0 := TriplesOf(init, noffs, toffs, value).value;
    var f := fl[|init|];
    var t := Triple(Lookup(noffs, f.name), Lookup(toffs, f.ftype), value(f).value);
    assert TriplesOf(fl, noffs, toffs, value).value == ts0 + [t];
    TriplesOfLength(init, noffs, toffs, value);
    if j < |init| {
      TriplesOfAt(init, noffs, toffs, value, j);
      assert fl[j] == init[j];
    }
  }

  /** The triples fail exactly when some feature's value cannot be coerced. */
  lemma {:induction false} TriplesOfFails(fl: seq<C.ParsedFeature>, noffs: map<string, int>, toffs: map<string, int>, value: Coercer)
    ensures TriplesOf(fl, noffs, toffs, value).Failure? <==> exists j :: 0 <= j < |fl| && value(fl[j]).Failure?
  {
    if fl == [] {
      assert TriplesOf(fl, noffs, toffs, value) == Success([]);
    } else {
      var init := fl[..|fl| - 1];
      var f := fl[|init|];
      TriplesOfFails(init, noffs, toffs, value);
      if TriplesOf(init, noffs, toffs, value).Failure? {
        var j :| 0 <= j < |init| && value(init[j]).Failure?;
        assert fl[j] == init[j];
        assert TriplesOf(fl, noffs, toffs, value).Failure?;
      } else if value(f).Failure? {
        assert TriplesOf(fl, noffs, toffs, value).Failure?;
      } else {
        assert TriplesOf(fl, noffs, toffs, value).Success?;
        forall j | 0 <= j < |fl|
          ensures value(fl[j]).Success?
        {
          if j < |init| {
            assert fl[j] == init[j];
          }
        }
      }
    }
  }

  /** One record per sample, in sample order. */
  lemma {:induction false} RecordsOfEach(samples: seq<C.Sample>, noffs: map<string, int>, toffs: map<string, int>, func: string)
    requires RecordsOf(samples, noffs, toffs, func).Success?
    ensures var rs := RecordsOf(samples, noffs, toffs, func).value;
      |rs| == |samples| &&
      forall i :: 0 <= i < |samples| ==> RecordOf(samples[i], noffs, toffs, func) == Success(rs[i])
  {
    if samples != [] {
      var init, n := samples[..|samples| - 1], |samples| - 1;
      var prefix, last := RecordsOf(init, noffs, toffs, func), RecordOf(samples[n], noffs, toffs, func);
      assert prefix.Success? && last.Success? && RecordsOf(samples, noffs, toffs, func).value == prefix.value + [last.value];
      RecordsOfEach(init, noffs, toffs, func);
      forall i | 0 <= i < n
        ensures RecordOf(samples[i], noffs, toffs, func) == Success((prefix.value + [last.value])[i])
      {
        assert samples[i] == init[i];
      }
    }
  }

  /** A record's feature count is its sample's list length, below 2^32, with one triple per feature in list order. */
  lemma RecordFeatures(s: C.Sample, noffs: map<string, int>, toffs: map<string, int>, func: string)
    requires RecordOf(s, noffs, toffs, func).Success?
    ensures var r := RecordOf(s, noffs, toffs, func).value;
      |r.features| == |s.featureList| < Two32 &&
      forall j :: 0 <= j < |s.featureList| ==> TripleFor(r.features[j], s.featureList[j], noffs, toffs, Coercion(func))
  {
    TriplesOfEach(s.featureList, noffs, toffs, Coercion(func));
  }

  lemma {:induction false} InternSize(fs: seq<C.ParsedFeature>)
    ensures |Intern(fs).types| <= |Intern(fs).names| <= |fs|
  {
    if fs != [] {
      var init := fs[..|fs| - 1];
      InternSize(init);
      InsertSortedSize(Intern(init).types, fs[|fs| - 1].ftype);
    }
  }

  lemma {:induction false} InsertSortedSize(ts: seq<string>, t: string)
    ensures |InsertSorted(ts, t)| <= |ts| + 1
  {
    if ts != [] && t != ts[0] && !Less(t, ts[0]) {
      InsertSortedSize(ts[1..], t);
    }
  }

  lemma SortedDistinct(ts: seq<string>)
    requires Sorted(ts)
    ensures Distinct(ts)
  {
    forall i, j | 0 <= i < j < |ts|
      ensures ts[i] != ts[j]
    {
      LessIrreflexive(ts[i]);
    }
  }

  /** A feature's name is in the name table. */
  lemma {:induction false} InternHas(fs: seq<C.ParsedFeature>, k: nat)
    requires k < |fs|
    ensures fs[k].name in Intern(fs).names
  {
    var init := fs[..|fs| - 1];
    if k < |init| {
      InternHas(init, k);
      assert init[k] == fs[k];
    }
  }

  /** No name is interned twice. */
  lemma {:induction false} InternDistinct(fs: seq<C.ParsedFeature>)
    ensures Distinct(Intern(fs).names)
  {
    if fs != [] {
      InternDistinct(fs[..|fs| - 1]);
    }
  }

  /** Where the name of feature `k` of the whole list sits in the name table. */
  lemma NameOffsetOf(name: string, fs: seq<C.ParsedFeature>, k: nat)
    requires k < |fs|
    ensures var names := Intern(fs).names;
      exists i :: 0 <= i < |names| && names[i] == fs[k].name &&
        Lookup(Offsets(names, NamesBase(name)), fs[k].name) == NamesBase(name) + |Entries(names[..i])|
  {
    var names := Intern(fs).names;
    InternHas(fs, k);
    InternDistinct(fs);
    var i :| 0 <= i < |names| && names[i] == fs[k].name;
    OffsetsAt(names, NamesBase(name), i);
  }

  /** Where the type of feature `k` sits in the type table, when the type set holds it. */
  lemma TypeOffsetOf(name: string, fs: seq<C.ParsedFeature>, t: string)
    requires t in Intern(fs).types
    ensures var st := Intern(fs);
      exists i :: 0 <= i < |st.types| && st.types[i] == t &&
        Lookup(Offsets(st.types, TypesBase(name, st.names)), t) == TypesBase(name, st.names) + |Entries(st.types[..i])|
  {
    var st := Intern(fs);
    InternSorted(fs);
    SortedDistinct(st.types);
    var i :| 0 <= i < |st.types| && st.types[i] == t;
    OffsetsAt(st.types, TypesBase(name, st.names), i);
  }

  /** A type missing from the type set has offset 0: `operator[]` inserts a zero. */
  lemma MissingTypeOffset(ss: seq<string>, base: int, t: string)
    requires t !in ss
    ensures Lookup(Offsets(ss, base), t) == 0
  {
    OffsetsKeys(ss, base);
  }

  /** Feature `j` of sample `i` is feature `|AllFeatures(samples[..i])| + j` of the whole list. */
  lemma {:induction false} AllFeaturesAt(samples: seq<C.Sample>, i: nat, j: nat)
    requires i < |samples| && j < |samples[i].featureList|
    ensures |AllFeatures(samples[..i])| + j < |AllFeatures(samples)|
    ensures AllFeatures(samples)[|AllFeatures(samples[..i])| + j] == samples[i].featureList[j]
  {
    var init := samples[..|samples| - 1];
    if i == |samples| - 1 {
      assert samples[..i] == init;
    } else {
      AllFeaturesAt(init, i, j);
      assert init[..i] == samples[..i] && init[i] == samples[i];
    }
  }

  /** The record, and the triple, that sample `i`'s feature `j` becomes. */
  lemma TripleOfFeature(name: string, samples: seq<C.Sample>, i: nat, j: nat)
    requires LayoutOf(name, samples).Success?
    requires i < |samples| && j < |samples[i].featureList|
    ensures var l := LayoutOf(name, samples).value;
      var st := Intern(AllFeatures(samples));
      i < |l.records| && j < |l.records[i].features| &&
      TripleFor(l.records[i].features[j], samples[i].featureList[j],
        Offsets(st.names, NamesBase(name)), Offsets(st.types, TypesBase(name, st.names)), Coercion(name))
  {
    var st := Intern(AllFeatures(samples));
    var noffs := Offsets(st.names, NamesBase(name));
    var toffs := Offsets(st.types, TypesBase(name, st.names));
    RecordsOfEach(samples, noffs, toffs, name);
    RecordFeatures(samples[i], noffs, toffs, name);
  }

  /** The two offsets of the triple of sample `i`'s feature `j`: those of its name and of its type. */
  lemma TripleOffsets(name: string, samples: seq<C.Sample>, i: nat, j: nat)
    requires LayoutOf(name, samples).Success?
    requires i < |samples| && j < |samples[i].featureList|
    ensures var l := LayoutOf(name, samples).value;
      var f := samples[i].featureList[j];
      i < |l.records| && j < |l.records[i].features| &&
      l.records[i].features[j].nameOffset == Lookup(Offsets(l.fnames, NamesBase(name)), f.name) &&
      l.records[i].features[j].typeOffset == Lookup(Offsets(l.types, TypesBase(name, l.fnames)), f.ftype)
  {
    TripleOfFeature(name, samples, i, j);
  }

  /** The layout's name and tables are those of the interned features. */
  lemma LayoutTables(name: string, samples: seq<C.Sample>)
    requires LayoutOf(name, samples).Success?
    ensures var l := LayoutOf(name, samples).value;
      l.name == name && Intern(AllFeatures(samples)) == Interned(l.fnames, l.types)
  {
  }

  /** Reading an entry at the name offset of feature `k` gives its name. */
  lemma NameEntryOf(l: Layout, fs: seq<C.ParsedFeature>, k: nat, off: int, s: string)
    requires k < |fs| && fs[k].name == s && l.fnames == Intern(fs).names && EntryFits(s)
    requires off == Lookup(Offsets(l.fnames, NamesBase(l.name)), s)
    ensures EntryAt(Serialize(l), off, s)
  {
    NameOffsetOf(l.name, fs, k);
    var n :| 0 <= n < |l.fnames| && l.fnames[n] == s &&
      Lookup(Offsets(l.fnames, NamesBase(l.name)), s) == NamesBase(l.name) + |Entries(l.fnames[..n])|;
    FeatureNameAt(l, n, off, s);
  }

  /** Reading an entry at the type offset of a type in the type set gives that type. */
  lemma TypeEntryOf(l: Layout, fs: seq<C.ParsedFeature>, t: string)
    requires Intern(fs) == Interned(l.fnames, l.types) && t in l.types && EntryFits(t)
    ensures EntryAt(Serialize(l), Lookup(Offsets(l.types, TypesBase(l.name, l.fnames)), t), t)
  {
    TypeOffsetOf(l.name, fs, t);
    var n :| 0 <= n < |l.types| && l.types[n] == t &&
      Lookup(Offsets(l.types, TypesBase(l.name, l.fnames)), t) == TypesBase(l.name, l.fnames) + |Entries(l.types[..n])|;
    TypeNameAt(l, n, Lookup(Offsets(l.types, TypesBase(l.name, l.fnames)), t), t);
  }

  /**
   * The name offset of every feature in a record is the position of that
   * feature's name in the name table: reading an entry there gives the name.
   */
  lemma NameOffsetPoints(name: string, samples: seq<C.Sample>, i: nat, j: nat)
    requires LayoutOf(name, samples).Success?
    requires i < |samples| && j < |samples[i].featureList|
    requires EntryFits(samples[i].featureList[j].name)
    ensures var l := LayoutOf(name, samples).value;
      i < |l.records| && j < |l.records[i].features| &&
      EntryAt(Serialize(l), l.records[i].features[j].nameOffset, samples[i].featureList[j].name)
  {
    var l := LayoutOf(name, samples).value;
    var fs := AllFeatures(samples);
    var k := |AllFeatures(samples[..i])| + j;
    AllFeaturesAt(samples, i, j);
    assert k < |fs| && fs[k].name == samples[i].featureList[j].name;
    TripleOffsets(name, samples, i, j);
    LayoutTables(name, samples);
    NameEntryOf(l, fs, k, l.records[i].features[j].nameOffset, samples[i].featureList[j].name);
  }

  /**
   * The type offset of a feature points at its type's entry when the type
   * set holds that type, and is 0 when it does not.
   */
  lemma TypeOffsetPoints(name: string, samples: seq<C.Sample>, i: nat, j: nat)
    requires LayoutOf(name, samples).Success?
    requires i < |samples| && j < |samples[i].featureList|
    requires EntryFits(samples[i].featureList[j].ftype)
    ensures var l := LayoutOf(name, samples).value;
      i < |l.records| && j < |l.records[i].features| &&
      var off := l.records[i].features[j].typeOffset;
      var t := samples[i].featureList[j].ftype;
      (t in l.types ==> EntryAt(Serialize(l), off, t)) &&
      (t !in l.types ==> off == 0)
  {
    var l := LayoutOf(name, samples).value;
    var t := samples[i].featureList[j].ftype;
    TripleOffsets(name, samples, i, j);
    LayoutTables(name, samples);
    if t in l.types {
      TypeEntryOf(l, AllFeatures(samples), t);
    } else {
      MissingTypeOffset(l.types, TypesBase(name, l.fnames), t);
    }
  }

  // ---------------------------------------------------------------- round trip

  /**
   * The sizes the trace's fields hold: the function name fits a u32 length,
   * every feature's name and type fit a u16 length, all characters fit a
   * byte, and there are fewer than 2^32 samples and features in all.
   */
  predicate InputFits(name: string, samples: seq<C.Sample>) {
    && |name| < Two32 && Narrow(name) && |samples| < Two32
    && |AllFeatures(samples)| < Two32
    && forall k :: 0 <= k < |AllFeatures(samples)| ==>
         EntryFits(AllFeatures(samples)[k].name) && EntryFits(AllFeatures(samples)[k].ftype)
  }

  /** Every value of `m` lies in [0, bound). */
  predicate Below(m: map<string, int>, bound: int) {
    forall x :: x in m ==> 0 <= m[x] < bound
  }

  lemma {:induction false} EntriesSize(ss: seq<string>)
    ensures |Entries(ss)| <= |ss| * 0x1_0001
  {
    if ss != [] {
      EntriesSize(ss[..|ss| - 1]);
    }
  }

  /** Every offset lies between the table's start and its end. */
  lemma {:induction false} OffsetsRange(ss: seq<string>, base: int)
    ensures forall x :: x in Offsets(ss, base) ==> base <= Offsets(ss, base)[x] <= base + |Entries(ss)|
  {
    if ss != [] {
      OffsetsRange(ss[..|ss| - 1], base);
    }
  }

  lemma MulMono(a: int, b: int, c: int)
    requires 0 <= a <= b && 0 <= c
    ensures a * c <= b * c
  {
  }

  /** Both offset tables of a layout stay below 2^64 when the input fits. */
  lemma OffsetsFit(name: string, fs: seq<C.ParsedFeature>)
    requires |fs| < Two32
    ensures var st := Intern(fs);
      Below(Offsets(st.names, NamesBase(name)), Two64) &&
      Below(Offsets(st.types, TypesBase(name, st.names)), Two64)
  {
    var st := Intern(fs);
    InternSize(fs);
    EntriesSize(st.names);
    EntriesSize(st.types);
    MulMono(|st.names|, Two32, 0x1_0001);
    MulMono(|st.types|, Two32, 0x1_0001);
    OffsetsRange(st.names, NamesBase(name));
    OffsetsRange(st.types, TypesBase(name, st.names));
  }

  /** With offsets below 2^64, a sample's record fits the record's fields. */
  lemma RecordFitsOf(s: C.Sample, noffs: map<string, int>, toffs: map<string, int>, func: string)
    requires RecordOf(s, noffs, toffs, func).Success?
    requires Below(noffs, Two64) && Below(toffs, Two64)
    ensures RecordFits(RecordOf(s, noffs, toffs, func).value)
  {
    var r := RecordOf(s, noffs, toffs, func).value;
    RecordFeatures(s, noffs, toffs, func);
    forall j | 0 <= j < |r.features|
      ensures TripleFits(r.features[j])
    {
      var f := s.featureList[j];
      assert TripleFor(r.features[j], f, noffs, toffs, Coercion(func));
      assert Coercion(func)(f) == Coerce(f, func);
    }
  }

  /** The names in the name table, and the types in the type table, are those of features. */
  lemma TablesFit(fs: seq<C.ParsedFeature>)
    requires forall k :: 0 <= k < |fs| ==> EntryFits(fs[k].name) && EntryFits(fs[k].ftype)
    ensures forall i :: 0 <= i < |Intern(fs).names| ==> EntryFits(Intern(fs).names[i])
    ensures forall i :: 0 <= i < |Intern(fs).types| ==> EntryFits(Intern(fs).types[i])
  {
    var st := Intern(fs);
    InternNames(fs);
    InternOnlyTypes(fs);
    forall i | 0 <= i < |st.names|
      ensures EntryFits(st.names[i])
    {
      assert st.names[i] in st.names;
      var k :| 0 <= k < |fs| && fs[k].name == st.names[i];
    }
    forall i | 0 <= i < |st.types|
      ensures EntryFits(st.types[i])
    {
      assert st.types[i] in st.types;
      var k :| FirstOf(fs, k) && fs[k].ftype == st.types[i];
    }
  }

  /** The layout of an input that fits has every number and string within its field. */
  lemma LayoutFits(name: string, samples: seq<C.Sample>)
    requires LayoutOf(name, samples).Success? && InputFits(name, samples)
    ensures Fits(LayoutOf(name, samples).value)
  {
    var fs := AllFeatures(samples);
    var st := Intern(fs);
    var noffs := Offsets(st.names, NamesBase(name));
    var toffs := Offsets(st.types, TypesBase(name, st.names));
    var l := LayoutOf(name, samples).value;
    InternSize(fs);
    TablesFit(fs);
    OffsetsFit(name, fs);
    RecordsOfEach(samples, noffs, toffs, name);
    forall i | 0 <= i < |l.records|
      ensures RecordFits(l.records[i])
    {
      RecordFitsOf(samples[i], noffs, toffs, name);
    }
  }

  /** Decoding the encoded trace of an input that fits gives back its layout. */
  lemma EncodeDecode(name: string, samples: seq<C.Sample>)
    requires EncodeSpec(name, samples).Success? && InputFits(name, samples)
    ensures Decode(EncodeSpec(name, samples).value) == Some(LayoutOf(name, samples).value)
  {
    LayoutFits(name, samples);
    DecodeSerialize(LayoutOf(name, samples).value);
  }

  // ---------------------------------------------------------------- every function

  /** A function's name and its samples in the order `sample_list` is iterated. */
  datatype Listing = Listing(name: string, samples: seq<C.Sample>)

  /** A function's trace; `EncodeAll` is stated over any such encoding so that its lemmas need not look inside. */
  type ListingEncoder = Listing -> Result<seq<Byte>, EncodeError>

  function TraceOf(l: Listing): Result<seq<Byte>, EncodeError> {
    EncodeSpec(l.name, l.samples)
  }

  /** One trace per function in the order `func_list` is iterated (with `TraceOf`); the first failure stops the encoder. */
  function EncodeAll(funcs: seq<Listing>, encode: ListingEncoder): Result<seq<seq<Byte>>, EncodeError> {
    if funcs == [] then Success([])
    else
      var files :- EncodeAll(funcs[..|funcs| - 1], encode);
      var file :- encode(funcs[|funcs| - 1]);
      Success(files + [file])
  }

  /** On success there is one trace per function, each that function's own. */
  lemma {:induction false} EncodeAllEach(funcs: seq<Listing>, encode: ListingEncoder)
    requires EncodeAll(funcs, encode).Success?
    ensures var files := EncodeAll(funcs, encode).value;
      |files| == |funcs| && forall i :: 0 <= i < |funcs| ==> encode(funcs[i]) == Success(files[i])
  {
    if funcs != [] {
      EncodeAllEach(funcs[..|funcs| - 1], encode);
    }
  }

  /** The encoder fails exactly when some function's trace fails, and then with the error of the first. */
  lemma {:induction false} EncodeAllFails(funcs: seq<Listing>, encode: ListingEncoder)
    ensures EncodeAll(funcs, encode).Failure? <==> exists i :: 0 <= i < |funcs| && encode(funcs[i]).Failure?
    ensures EncodeAll(funcs, encode).Failure? ==>
      exists i :: 0 <= i < |funcs| && encode(funcs[i]) == Failure(EncodeAll(funcs, encode).error)
        && forall k :: 0 <= k < i ==> encode(funcs[k]).Success?
  {
    if funcs != [] {
      var init := funcs[..|funcs| - 1];
      EncodeAllFails(init, encode);
      var n := |funcs| - 1;
      if EncodeAll(init, encode).Failure? {
        var i :| 0 <= i < |init| && encode(init[i]) == Failure(EncodeAll(init, encode).error)
          && forall k :: 0 <= k < i ==> encode(init[k]).Success?;
        assert funcs[i] == init[i];
        forall k | 0 <= k < i ensures encode(funcs[k]).Success? {
          assert funcs[k] == init[k];
        }
      } else {
        EncodeAllEach(init, encode);
        forall k | 0 <= k < n ensures encode(funcs[k]).Success? {
          assert funcs[k] == init[k];
        }
      }
    }
  }
}
