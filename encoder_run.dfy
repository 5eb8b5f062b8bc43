/**
 * The imperative `encode_perf_trace` of trace_merge.cc: an `ofstream`
 * opened in binary mode, written field by field, with the feature-name
 * count and each record's feature count written as zero placeholders and
 * patched in place through `tellp`/`seekp` once known. Each method is proved
 * to produce the bytes `Encoder.EncodeSpec` describes.
 */
module EncoderRun {
  import opened Wrappers
  import opened Text
  import opened Bytes
  import opened TraceFormat
  import opened Encoder
  import C = Correlator

  // ---------------------------------------------------------------- the output stream

  /** `bs` with the bytes from position `p` on overwritten by `b`, growing it where `b` runs past its end. */
  function Overwrite(bs: seq<Byte>, p: nat, b: seq<Byte>): (r: seq<Byte>)
    requires p <= |bs|
    ensures |r| == if p + |b| <= |bs| then |bs| else p + |b|
  {
    if p + |b| < |bs| then bs[..p] + b + bs[p + |b|..] else bs[..p] + b
  }

  /** Writing at the end appends. */
  lemma OverwriteEnd(bs: seq<Byte>, b: seq<Byte>)
    ensures Overwrite(bs, |bs|, b) == bs + b
  {
    assert bs[..|bs|] == bs;
  }

  /** Writing over a placeholder of the same size replaces just the placeholder. */
  lemma OverwritePatch(front: seq<Byte>, placeholder: seq<Byte>, back: seq<Byte>, b: seq<Byte>)
    requires |placeholder| == |b|
    ensures Overwrite(front + placeholder + back, |front|, b) == front + b + back
  {
    var bs := front + placeholder + back;
    assert bs[..|front|] == front;
    if back != [] {
      assert bs[|front| + |b|..] == back;
    }
  }

  /** A binary `ofstream`: the bytes of the file and the put position. */
  class OutFile {
    var bytes: seq<Byte>
    var pos: nat

    predicate Valid()
      reads this
    {
      pos <= |bytes|
    }

    /** A file opened for writing starts empty. */
    constructor ()
      ensures Valid() && bytes == [] && pos == 0
    {
      bytes := [];
      pos := 0;
    }

    /** `write`: the bytes go at the put position, which moves past them. */
    method Write(b: seq<Byte>)
      requires Valid()
      modifies this
      ensures Valid()
      ensures bytes == Overwrite(old(bytes), old(pos), b) && pos == old(pos) + |b|
      ensures old(pos) == |old(bytes)| ==> bytes == old(bytes) + b && pos == |bytes|
    {
      OverwriteEnd(bytes, b);
      bytes := Overwrite(bytes, pos, b);
      pos := pos + |b|;
    }

    /** `seekp` to a position `tellp` returned earlier. */
    method Seekp(p: nat)
      requires p <= |bytes|
      modifies this
      ensures Valid() && bytes == old(bytes) && pos == p
    {
      pos := p;
    }
  }

  /**
   * Going back to a position `tellp` returned before a placeholder, writing
   * over the placeholder, and returning to the end.
   */
  method Patch(out: OutFile, p: nat, b: seq<Byte>, ghost front: seq<Byte>, ghost placeholder: seq<Byte>, ghost back: seq<Byte>)
    requires out.Valid() && out.pos == |out.bytes| && out.bytes == front + placeholder + back
    requires p == |front| && |placeholder| == |b|
    modifies out
    ensures out.Valid() && out.pos == |out.bytes| && out.bytes == front + b + back
  {
    var prevPos := out.pos;
    out.Seekp(p);
    out.Write(b);
    OverwritePatch(front, placeholder, back, b);
    out.Seekp(prevPos);
  }

  // ---------------------------------------------------------------- one step of each specification

  lemma InternStep(fs: seq<C.ParsedFeature>, f: C.ParsedFeature)
    ensures var st := Intern(fs);
      Intern(fs + [f]) == if f.name in st.names then st else Interned(st.names + [f.name], InsertSorted(st.types, f.ftype))
  {
    assert (fs + [f])[..|fs|] == fs;
  }

  /** The step of `Intern` in terms of the state it is known to equal. */
  lemma InternAgrees(seen: seq<C.ParsedFeature>, f: C.ParsedFeature, names: seq<string>, types: seq<string>)
    requires Intern(seen) == Interned(names, types)
    ensures Intern(seen + [f]) ==
      if f.name in names then Interned(names, types) else Interned(names + [f.name], InsertSorted(types, f.ftype))
  {
    InternStep(seen, f);
  }

  lemma OffsetsStep(ss: seq<string>, s: string, base: int)
    ensures Offsets(ss + [s], base) == Insert(Offsets(ss, base), s, base + |Entries(ss)|)
  {
    var t := ss + [s];
    assert t[..|t| - 1] == ss && t[|t| - 1] == s;
  }

  lemma EntriesStep(ss: seq<string>, s: string)
    ensures Entries(ss + [s]) == Entries(ss) + Entry(s)
  {
    assert (ss + [s])[..|ss|] == ss;
  }

  lemma AllFeaturesStep(samples: seq<C.Sample>, i: nat)
    requires i < |samples|
    ensures AllFeatures(samples[..i + 1]) == AllFeatures(samples[..i]) + samples[i].featureList
  {
    assert samples[..i + 1][..i] == samples[..i];
  }

  lemma TriplesStep(fl: seq<C.ParsedFeature>, j: nat, noffs: map<string, int>, toffs: map<string, int>, value: Coercer)
    requires j < |fl|
    ensures var f := fl[j];
      TriplesOf(fl[..j + 1], noffs, toffs, value) ==
        match TriplesOf(fl[..j], noffs, toffs, value)
        case Failure(e) => Failure(e)
        case Success(ts) =>
          match value(f)
          case Failure(e) => Failure(e)
          case Success(v) => Success(ts + [Triple(Lookup(noffs, f.name), Lookup(toffs, f.ftype), v)])
  {
    assert fl[..j + 1][..j] == fl[..j];
  }

  lemma TriplesBytesStep(ts: seq<Triple>, t: Triple)
    ensures TriplesBytes(ts + [t]) == TriplesBytes(ts) + TripleBytes(t)
  {
    assert (ts + [t])[..|ts|] == ts;
  }

  lemma RecordsBytesStep(rs: seq<Record>, r: Record)
    ensures RecordsBytes(rs + [r]) == RecordsBytes(rs) + RecordBytes(r)
  {
    assert (rs + [r])[..|rs|] == rs;
  }

  /** A number and its value modulo 256 to the `w` are written alike. */
  lemma UnsignedMod(x: int, w: nat)
    ensures Unsigned(x % Pow256(w), w) == Unsigned(x, w)
  {
    var p := Pow256(w);
    assert (x % p) % p == x % p by {
      ModBelow(x % p, p);
    }
  }

  // ---------------------------------------------------------------- the name table

  /** A name written as its `uint16_t` length and that many characters. */
  method WriteEntry(out: OutFile, s: string)
    requires out.Valid() && out.pos == |out.bytes|
    modifies out
    ensures out.Valid() && out.pos == |out.bytes| && out.bytes == old(out.bytes) + Entry(s)
  {
    ghost var before := out.bytes;
    var len := |s| % Two16;
    out.Write(U16(len));
    out.Write(CharBytes(s[..len]));
    Pow256Widths();
    UnsignedMod(|s|, 2);
    AppendAssoc(before, U16(len), CharBytes(s[..len]));
  }


  /** What the name loop keeps: the bytes so far, the offsets of the names written, their count. */
  predicate NameTable(out: OutFile, start: seq<Byte>, names: seq<string>, offsets: map<string, int>, total: nat)
    reads out
  {
    && out.Valid() && out.pos == |out.bytes|
    && out.bytes == start + Entries(names)
    && offsets == Offsets(names, |start|)
    && total == |names| % Two32
  }

  /** One feature of the name loop. */
  method InternOne(out: OutFile, f: C.ParsedFeature, offsets: map<string, int>, types: seq<string>, total: nat,
                   ghost start: seq<Byte>, ghost names: seq<string>, ghost seen: seq<C.ParsedFeature>)
    returns (offsets': map<string, int>, types': seq<string>, total': nat, ghost names': seq<string>)
    requires NameTable(out, start, names, offsets, total) && Intern(seen) == Interned(names, types)
    modifies out
    ensures NameTable(out, start, names', offsets', total')
    ensures Intern(seen + [f]) == Interned(names', types')
  {
    InternAgrees(seen, f, names, types);
    offsets', types', total', names' := offsets, types, total, names;
    OffsetsKeys(names, |start|);
    if f.name !in offsets {
      OffsetsStep(names, f.name, |start|);
      EntriesStep(names, f.name);
      offsets' := Insert(offsets, f.name, out.pos);
      types' := InsertSorted(types, f.ftype);
      WriteEntry(out, f.name);
      AppendAssoc(start, Entries(names), Entry(f.name));
      CountStep(|names|, total);
      total' := (total + 1) % Two32;
      names' := names + [f.name];
    }
  }

  /** A 32-bit counter incremented once more. */
  lemma CountStep(n: nat, c: nat)
    requires c == n % Two32
    ensures (c + 1) % Two32 == (n + 1) % Two32
  {
    var q := n / Two32;
    assert n == q * Two32 + c;
    assert n + 1 == q * Two32 + (c + 1);
  }

  /** The name loop over one sample's feature list, after the features `seen` before it. */
  method InternList(out: OutFile, fl: seq<C.ParsedFeature>, offsets: map<string, int>, types: seq<string>, total: nat,
                    ghost start: seq<Byte>, ghost names: seq<string>, ghost seen: seq<C.ParsedFeature>)
    returns (offsets': map<string, int>, types': seq<string>, total': nat, ghost names': seq<string>)
    requires NameTable(out, start, names, offsets, total) && Intern(seen) == Interned(names, types)
    modifies out
    ensures NameTable(out, start, names', offsets', total')
    ensures Intern(seen + fl) == Interned(names', types')
  {
    offsets', types', total', names' := offsets, types, total, names;
    assert seen + fl[..0] == seen;
    for j := 0 to |fl|
      invariant NameTable(out, start, names', offsets', total')
      invariant Intern(seen + fl[..j]) == Interned(names', types')
    {
      offsets', types', total', names' := InternOne(out, fl[j], offsets', types', total', start, names', seen + fl[..j]);
      PrefixStep(seen, fl, j);
    }
    assert fl[..|fl|] == fl;
  }

  /**
   * The loop over every feature of every sample: a name not seen before
   * gets the current put position as its offset, adds its type to the type
   * set, and is written as a u16 length and its characters.
   */
  method WriteNames(out: OutFile, samples: seq<C.Sample>)
    returns (offsets: map<string, int>, types: seq<string>, total: nat, ghost names: seq<string>)
    requires out.Valid() && out.pos == |out.bytes|
    modifies out
    ensures NameTable(out, old(out.bytes), names, offsets, total)
    ensures Intern(AllFeatures(samples)) == Interned(names, types)
  {
    ghost var start := out.bytes;
    offsets, types, total, names := map[], [], 0, [];
    assert start + Entries(names) == start;
    for i := 0 to |samples|
      invariant NameTable(out, start, names, offsets, total)
      invariant Intern(AllFeatures(samples[..i])) == Interned(names, types)
    {
      offsets, types, total, names := InternList(out, samples[i].featureList, offsets, types, total, start, names, AllFeatures(samples[..i]));
      AllFeaturesStep(samples, i);
    }
    assert samples[..|samples|] == samples;
  }

  // ---------------------------------------------------------------- the type table

  /** The loop over the type set in its order: each type's offset is recorded, then it is written. */
  method WriteTypes(out: OutFile, types: seq<string>) returns (offsets: map<string, int>)
    requires out.Valid() && out.pos == |out.bytes|
    modifies out
    ensures out.Valid() && out.pos == |out.bytes|
    ensures out.bytes == old(out.bytes) + Entries(types)
    ensures offsets == Offsets(types, |old(out.bytes)|)
  {
    ghost var start := out.bytes;
    offsets := map[];
    assert start + Entries(types[..0]) == start;
    for k := 0 to |types|
      invariant out.Valid() && out.pos == |out.bytes|
      invariant out.bytes == start + Entries(types[..k])
      invariant offsets == Offsets(types[..k], |start|)
    {
      assert types[..k + 1] == types[..k] + [types[k]];
      OffsetsStep(types[..k], types[k], |start|);
      EntriesStep(types[..k], types[k]);
      offsets := Insert(offsets, types[k], out.pos);
      WriteEntry(out, types[k]);
      AppendAssoc(start, Entries(types[..k]), Entry(types[k]));
    }
    assert types[..|types|] == types;
  }

  // ---------------------------------------------------------------- the records

  /** A failure of the triples of a prefix is the failure of the whole list. */
  lemma {:induction false} TriplesFailPrefix(fl: seq<C.ParsedFeature>, k: nat, noffs: map<string, int>, toffs: map<string, int>, value: Coercer)
    requires k <= |fl| && TriplesOf(fl[..k], noffs, toffs, value).Failure?
    ensures TriplesOf(fl, noffs, toffs, value) == TriplesOf(fl[..k], noffs, toffs, value)
    decreases |fl|
  {
    if k < |fl| {
      var init := fl[..|fl| - 1];
      assert init[..k] == fl[..k];
      TriplesFailPrefix(init, k, noffs, toffs, value);
    } else {
      assert fl[..k] == fl;
    }
  }

  /** A failure of the records of a prefix is the failure of the whole sequence. */
  lemma {:induction false} RecordsFailPrefix(samples: seq<C.Sample>, k: nat, noffs: map<string, int>, toffs: map<string, int>, func: string)
    requires k <= |samples| && RecordsOf(samples[..k], noffs, toffs, func).Failure?
    ensures RecordsOf(samples, noffs, toffs, func) == RecordsOf(samples[..k], noffs, toffs, func)
    decreases |samples|
  {
    if k < |samples| {
      var init := samples[..|samples| - 1];
      assert init[..k] == samples[..k];
      RecordsFailPrefix(init, k, noffs, toffs, func);
    } else {
      assert samples[..k] == samples;
    }
  }

  lemma RecordsStep(samples: seq<C.Sample>, i: nat, noffs: map<string, int>, toffs: map<string, int>, func: string)
    requires i < |samples|
    ensures RecordsOf(samples[..i + 1], noffs, toffs, func) ==
      match RecordsOf(samples[..i], noffs, toffs, func)
      case Failure(e) => Failure(e)
      case Success(rs) =>
        match RecordOf(samples[i], noffs, toffs, func)
        case Failure(e) => Failure(e)
        case Success(r) => Success(rs + [r])
  {
    assert samples[..i + 1][..i] == samples[..i];
  }

  lemma Append3<T>(a: seq<T>, b: seq<T>, c: seq<T>, d: seq<T>)
    ensures ((a + b) + c) + d == a + (b + c + d)
  {
  }

  /** A write at the end of a file holding `before` and then `acc`. */
  method Append(out: OutFile, b: seq<Byte>, ghost before: seq<Byte>, ghost acc: seq<Byte>)
    requires out.Valid() && out.pos == |out.bytes| && out.bytes == before + acc
    modifies out
    ensures out.Valid() && out.pos == |out.bytes| && out.bytes == before + (acc + b)
  {
    out.Write(b);
    AppendAssoc(before, acc, b);
  }

  /** The figures of a record are the sample's uid and execution time and the five sums, as written. */
  lemma FiguresOf(s: C.Sample, ts: seq<Triple>)
    ensures FiguresBytes(Figures(s, ts)) ==
      U32(s.uid) + U64(s.execTime) + U64((s.memoryUsage + s.serverMemoryUsage) % Two64)
        + U64((s.serverLockHoldingTime + s.lockHoldingTime) % Two64) + U64((s.serverWaitingTime + s.waitingTime) % Two64)
        + U64((s.serverMinPagefault + s.minPagefault) % Two64) + U64((s.serverMajPagefault + s.majPagefault) % Two64)
  {
    U32Mod(s.uid);
    U64Mod(s.execTime);
  }

  lemma U32Mod(x: int)
    ensures U32(x % Two32) == U32(x)
  {
    Pow256Widths();
    UnsignedMod(x, 4);
  }

  lemma U64Mod(x: int)
    ensures U64(x % Two64) == U64(x)
  {
    Pow256Widths();
    UnsignedMod(x, 8);
  }

  /** The uid and the six figures of a sample, the sums computed in `uint64_t`. */
  method WriteFigures(out: OutFile, s: C.Sample)
    requires out.Valid() && out.pos == |out.bytes|
    modifies out
    ensures out.Valid() && out.pos == |out.bytes|
    ensures out.bytes == old(out.bytes) + FiguresBytes(Figures(s, []))
  {
    ghost var before := out.bytes;
    var totMem := (s.memoryUsage + s.serverMemoryUsage) % Two64;
    var totLock := (s.serverLockHoldingTime + s.lockHoldingTime) % Two64;
    var totWait := (s.serverWaitingTime + s.waitingTime) % Two64;
    var totMin := (s.serverMinPagefault + s.minPagefault) % Two64;
    var totMaj := (s.serverMajPagefault + s.majPagefault) % Two64;
    assert out.bytes == before + [];
    Append(out, U32(s.uid), before, []);
    ghost var acc := [] + U32(s.uid);
    Append(out, U64(s.execTime), before, acc);
    acc := acc + U64(s.execTime);
    Append(out, U64(totMem), before, acc);
    acc := acc + U64(totMem);
    Append(out, U64(totLock), before, acc);
    acc := acc + U64(totLock);
    Append(out, U64(totWait), before, acc);
    acc := acc + U64(totWait);
    Append(out, U64(totMin), before, acc);
    acc := acc + U64(totMin);
    Append(out, U64(totMaj), before, acc);
    acc := acc + U64(totMaj);
    FiguresOf(s, []);
    assert [] + U32(s.uid) == U32(s.uid);
  }

  /**
   * The loop over a sample's features: the name and type offsets (0 for a
   * name or type missing from the tables), then the value converted by its
   * type; an unknown type or a bad value stops the encoder. `count` is the
   * `uint32_t` feature counter.
   */
  method WriteTriples(out: OutFile, fl: seq<C.ParsedFeature>, noffs: map<string, int>, toffs: map<string, int>, func: string)
    returns (r: Outcome<EncodeError>, count: nat, ghost ts: seq<Triple>)
    requires out.Valid() && out.pos == |out.bytes|
    modifies out
    ensures out.Valid() && out.pos == |out.bytes|
    ensures r.Pass? ==> TriplesOf(fl, noffs, toffs, Coercion(func)) == Success(ts)
    ensures r.Pass? ==> out.bytes == old(out.bytes) + TriplesBytes(ts) && count == |fl| % Two32
    ensures r.Fail? ==> TriplesOf(fl, noffs, toffs, Coercion(func)) == Failure(r.error)
  {
    ghost var start := out.bytes;
    count, ts := 0, [];
    assert start + TriplesBytes(ts) == start;
    assert fl[..0] == [];
    for j := 0 to |fl|
      invariant out.Valid() && out.pos == |out.bytes|
      invariant TriplesOf(fl[..j], noffs, toffs, Coercion(func)) == Success(ts)
      invariant out.bytes == start + TriplesBytes(ts)
      invariant count == j % Two32
    {
      var f := fl[j];
      var offs := Lookup(noffs, f.name);
      var tof := Lookup(toffs, f.ftype);
      Append(out, U64(offs), start, TriplesBytes(ts));
      Append(out, U64(tof), start, TriplesBytes(ts) + U64(offs));
      var v := Coerce(f, func);
      TriplesStep(fl, j, noffs, toffs, Coercion(func));
      if v.Failure? {
        TriplesFailPrefix(fl, j + 1, noffs, toffs, Coercion(func));
        return Fail(v.error), count, ts;
      }
      Append(out, U64(v.value), start, TriplesBytes(ts) + U64(offs) + U64(tof));
      ghost var t := Triple(offs, tof, v.value);
      Append3(TriplesBytes(ts), U64(offs), U64(tof), U64(v.value));
      TriplesBytesStep(ts, t);
      CountStep(j, count);
      count := (count + 1) % Two32;
      ts := ts + [t];
    }
    assert fl[..|fl|] == fl;
    r := Pass;
  }

  lemma Append5<T>(a: seq<T>, b: seq<T>, c: seq<T>, d: seq<T>, e: seq<T>, f: seq<T>)
    ensures ((((a + b) + c) + d) + e) + f == a + ((((b + c) + d) + e) + f)
  {
  }

  /** The bytes of a record once its feature count is patched and the two zero counts follow. */
  lemma RecordWritten(before: seq<Byte>, s: C.Sample, ts: seq<Triple>)
    ensures ((((before + FiguresBytes(Figures(s, []))) + U32(|ts|)) + TriplesBytes(ts)) + U32(0)) + U32(0)
      == before + RecordBytes(Figures(s, ts))
  {
    FiguresOf(s, []);
    FiguresOf(s, ts);
    Append5(before, FiguresBytes(Figures(s, [])), U32(|ts|), TriplesBytes(ts), U32(0), U32(0));
  }

  /**
   * One sample: its figures, a zero feature count at `tf_pos`, the triples,
   * the check that the 32-bit counter equals the list's size, the count
   * patched in at `tf_pos`, and zero branch and child counts.
   */
  method WriteRecord(out: OutFile, s: C.Sample, noffs: map<string, int>, toffs: map<string, int>, func: string)
    returns (r: Outcome<EncodeError>)
    requires out.Valid() && out.pos == |out.bytes|
    modifies out
    ensures out.Valid() && out.pos == |out.bytes|
    ensures RecordOf(s, noffs, toffs, func).Success? ==>
      r.Pass? && out.bytes == old(out.bytes) + RecordBytes(RecordOf(s, noffs, toffs, func).value)
    ensures RecordOf(s, noffs, toffs, func).Failure? ==> r == Fail(RecordOf(s, noffs, toffs, func).error)
  {
    ghost var before := out.bytes;
    WriteFigures(out, s);
    ghost var front := out.bytes;
    var tfPos := out.pos;
    out.Write(U32(0));
    var res, count, ts := WriteTriples(out, s.featureList, noffs, toffs, func);
    if res.Fail? {
      return res;
    }
    if count != |s.featureList| {
      return Fail(CountMismatch(func));
    }
    TriplesOfLength(s.featureList, noffs, toffs, Coercion(func));
    Patch(out, tfPos, U32(count), front, U32(0), TriplesBytes(ts));
    out.Write(U32(0));
    out.Write(U32(0));
    RecordWritten(before, s, ts);
    r := Pass;
  }

  /** The loop over the samples in their order; the first failing sample stops the encoder. */
  method WriteRecords(out: OutFile, samples: seq<C.Sample>, noffs: map<string, int>, toffs: map<string, int>, func: string)
    returns (r: Outcome<EncodeError>)
    requires out.Valid() && out.pos == |out.bytes|
    modifies out
    ensures out.Valid() && out.pos == |out.bytes|
    ensures RecordsOf(samples, noffs, toffs, func).Success? ==>
      r.Pass? && out.bytes == old(out.bytes) + RecordsBytes(RecordsOf(samples, noffs, toffs, func).value)
    ensures RecordsOf(samples, noffs, toffs, func).Failure? ==> r == Fail(RecordsOf(samples, noffs, toffs, func).error)
  {
    ghost var start := out.bytes;
    ghost var rs: seq<Record> := [];
    assert samples[..0] == [];
    assert start + RecordsBytes(rs) == start;
    for i := 0 to |samples|
      invariant out.Valid() && out.pos == |out.bytes|
      invariant RecordsOf(samples[..i], noffs, toffs, func) == Success(rs)
      invariant out.bytes == start + RecordsBytes(rs)
    {
      var res := WriteRecord(out, samples[i], noffs, toffs, func);
      RecordsStep(samples, i, noffs, toffs, func);
      if res.Fail? {
        RecordsFailPrefix(samples, i + 1, noffs, toffs, func);
        return res;
      }
      ghost var rec := RecordOf(samples[i], noffs, toffs, func).value;
      RecordsBytesStep(rs, rec);
      AppendAssoc(start, RecordsBytes(rs), RecordBytes(rec));
      rs := rs + [rec];
    }
    assert samples[..|samples|] == samples;
    r := Pass;
  }

  // ---------------------------------------------------------------- one function's trace

  lemma TablesOrder<T>(a: seq<T>, b: seq<T>, c: seq<T>, d: seq<T>, e: seq<T>)
    ensures (a + b) + ((c + d) + e) == (((a + b) + c) + d) + e
  {
  }

  /** The function name: its `uint32_t` length and that many characters. */
  method WriteHeader(out: OutFile, name: string)
    requires out.Valid() && out.pos == |out.bytes|
    modifies out
    ensures out.Valid() && out.pos == |out.bytes| && out.bytes == old(out.bytes) + HeaderBytes(name)
  {
    ghost var before := out.bytes;
    var nameLen := |name| % Two32;
    out.Write(U32(nameLen));
    out.Write(CharBytes(name[..nameLen]));
    U32Mod(|name|);
    AppendAssoc(before, U32(nameLen), CharBytes(name[..nameLen]));
  }

  /**
   * The front of one function's trace on a fresh file: the name, a zero name
   * count, the name table, the type count and table, and the name count
   * patched in. The offsets are those of the names and types as written.
   */
  method WriteTables(out: OutFile, name: string, samples: seq<C.Sample>)
    returns (noffs: map<string, int>, toffs: map<string, int>, ghost names: seq<string>, ghost types: seq<string>)
    requires out.Valid() && out.bytes == [] && out.pos == 0
    modifies out
    ensures out.Valid() && out.pos == |out.bytes|
    ensures Intern(AllFeatures(samples)) == Interned(names, types)
    ensures noffs == Offsets(names, NamesBase(name)) && toffs == Offsets(types, TypesBase(name, names))
    ensures out.bytes == HeaderBytes(name) + U32(|names|) + Entries(names) + U32(|types|) + Entries(types)
  {
    WriteHeader(out, name);
    ghost var header := out.bytes;
    assert header == HeaderBytes(name);
    var totPos := out.pos;
    out.Write(U32(0));
    var total, tnames;
    noffs, tnames, total, names := WriteNames(out, samples);
    types := tnames;
    ghost var nameTable := Entries(names);
    var tcount := |tnames| % Two32;
    out.Write(U32(tcount));
    assert |out.bytes| == TypesBase(name, names);
    toffs := WriteTypes(out, tnames);
    Append3(header + U32(0), nameTable, U32(tcount), Entries(types));
    Patch(out, totPos, U32(total), header, U32(0), (nameTable + U32(tcount)) + Entries(types));
    U32Mod(|names|);
    U32Mod(|types|);
    TablesOrder(header, U32(total), nameTable, U32(tcount), Entries(types));
  }

  /** `EncodeSpec` once the tables are known. */
  lemma EncodeSpecOf(name: string, samples: seq<C.Sample>, names: seq<string>, types: seq<string>)
    requires Intern(AllFeatures(samples)) == Interned(names, types)
    ensures var rs := RecordsOf(samples, Offsets(names, NamesBase(name)), Offsets(types, TypesBase(name, names)), name);
      EncodeSpec(name, samples) ==
        if rs.Failure? then Failure(rs.error) else Success(Serialize(Layout(name, names, types, rs.value)))
  {
  }

  /**
   * The body of `encode_perf_trace`'s loop for one function, on a fresh
   * file: the tables, the sample count, and the records. The result is the
   * file's bytes, or the error that stops the encoder.
   */
  method EncodeFunction(name: string, samples: seq<C.Sample>) returns (r: Result<seq<Byte>, EncodeError>)
    ensures r == EncodeSpec(name, samples)
  {
    var out := new OutFile();
    var noffs, toffs, names, types := WriteTables(out, name, samples);
    EncodeSpecOf(name, samples, names, types);
    ghost var tables := out.bytes;
    var samplesCount := |samples| % Two32;
    out.Write(U32(samplesCount));
    var res := WriteRecords(out, samples, noffs, toffs, name);
    if res.Fail? {
      return Failure(res.error);
    }
    ghost var rs := RecordsOf(samples, noffs, toffs, name).value;
    RecordsOfEach(samples, noffs, toffs, name);
    U32Mod(|samples|);
    assert Serialize(Layout(name, names, types, rs)) == tables + U32(|rs|) + RecordsBytes(rs);
    r := Success(out.bytes);
  }

  lemma EncodeAllStep(funcs: seq<Listing>, i: nat, encode: ListingEncoder)
    requires i < |funcs|
    ensures EncodeAll(funcs[..i + 1], encode) ==
      match EncodeAll(funcs[..i], encode)
      case Failure(e) => Failure(e)
      case Success(files) =>
        match encode(funcs[i])
        case Failure(e) => Failure(e)
        case Success(file) => Success(files + [file])
  {
    assert funcs[..i + 1][..i] == funcs[..i];
  }

  /** A failure of a prefix of the functions is the failure of the whole run. */
  lemma {:induction false} EncodeAllFailPrefix(funcs: seq<Listing>, k: nat, encode: ListingEncoder)
    requires k <= |funcs| && EncodeAll(funcs[..k], encode).Failure?
    ensures EncodeAll(funcs, encode) == EncodeAll(funcs[..k], encode)
    decreases |funcs|
  {
    if k < |funcs| {
      var init := funcs[..|funcs| - 1];
      assert init[..k] == funcs[..k];
      EncodeAllFailPrefix(init, k, encode);
    } else {
      assert funcs[..k] == funcs;
    }
  }

  /**
   * `encode_perf_trace`: one file per function in the order given, each
   * with its own bytes; the first error stops the run (the `exit` of the
   * source), and the files written before it are not returned.
   */
  method EncodePerfTrace(funcs: seq<Listing>) returns (r: Result<seq<seq<Byte>>, EncodeError>)
    ensures r == EncodeAll(funcs, TraceOf)
  {
    var files: seq<seq<Byte>> := [];
    assert funcs[..0] == [];
    for i := 0 to |funcs|
      invariant EncodeAll(funcs[..i], TraceOf) == Success(files)
    {
      var file := EncodeFunction(funcs[i].name, funcs[i].samples);
      EncodeAllStep(funcs, i, TraceOf);
      if file.Failure? {
        EncodeAllFailPrefix(funcs, i + 1, TraceOf);
        return Failure(file.error);
      }
      files := files + [file.value];
    }
    assert funcs[..|funcs|] == funcs;
    r := Success(files);
  }
}
