/**
 * The binary performance trace `encode_perf_trace` writes for one
 * function, as a value (`Layout`) and as the bytes that stand for it:
 *
 *   u32 name length, the name's bytes,
 *   u32 feature-name count, per name a u16 length and its bytes,
 *   u32 type count, per type a u16 length and its bytes,
 *   u32 sample count, and per sample
 *     u32 uid, u64 execution time, u64 memory, u64 lock holding time,
 *     u64 waiting time, u64 minor faults, u64 major faults,
 *     u32 feature count, per feature (u64 name offset, u64 type offset,
 *     i64 value), then two u32 zeros (no branches, no children).
 *
 * Every integer is little-endian. `Decode` reads such bytes back, and
 * `DecodeSerialize` proves it inverts `Serialize` on layouts whose
 * numbers and strings fit their fields.
 */
module TraceFormat {
  import opened Wrappers
  import opened Text
  import opened Bytes

  datatype Triple = Triple(nameOffset: int, typeOffset: int, value: int)

  datatype Record = Record(
    uid: int,
    execTime: int,
    memory: int,
    lockHolding: int,
    waiting: int,
    minorFaults: int,
    majorFaults: int,
    features: seq<Triple>)

  datatype Layout = Layout(name: string, fnames: seq<string>, types: seq<string>, records: seq<Record>)

  // ---------------------------------------------------------------- writing

  /** The function name: its length as u32 and that many characters. */
  function HeaderBytes(name: string): (bs: seq<Byte>)
    ensures |bs| == 4 + |name| % Two32
  {
    Pow256Widths();
    U32(|name|) + CharBytes(name[..|name| % Two32])
  }

  /** A feature or type name: u16 length and that many characters. */
  function Entry(s: string): (bs: seq<Byte>)
    ensures |bs| == 2 + |s| % Two16
  {
    Pow256Widths();
    U16(|s|) + CharBytes(s[..|s| % Two16])
  }

  function Entries(ss: seq<string>): seq<Byte> {
    if ss == [] then [] else Entries(ss[..|ss| - 1]) + Entry(ss[|ss| - 1])
  }

  function TripleBytes(t: Triple): (bs: seq<Byte>)
    ensures |bs| == 24
  {
    U64(t.nameOffset) + U64(t.typeOffset) + U64(t.value)
  }

  function TriplesBytes(ts: seq<Triple>): seq<Byte> {
    if ts == [] then [] else TriplesBytes(ts[..|ts| - 1]) + TripleBytes(ts[|ts| - 1])
  }

  /** The uid and the six figures of a record. */
  function FiguresBytes(r: Record): (bs: seq<Byte>)
    ensures |bs| == 52
  {
    U32(r.uid) + U64(r.execTime) + U64(r.memory) + U64(r.lockHolding) + U64(r.waiting)
      + U64(r.minorFaults) + U64(r.majorFaults)
  }

  function RecordBytes(r: Record): seq<Byte> {
    FiguresBytes(r) + U32(|r.features|) + TriplesBytes(r.features) + U32(0) + U32(0)
  }

  function RecordsBytes(rs: seq<Record>): seq<Byte> {
    if rs == [] then [] else RecordsBytes(rs[..|rs| - 1]) + RecordBytes(rs[|rs| - 1])
  }

  function Serialize(l: Layout): seq<Byte> {
    HeaderBytes(l.name) + U32(|l.fnames|) + Entries(l.fnames) + U32(|l.types|) + Entries(l.types)
      + U32(|l.records|) + RecordsBytes(l.records)
  }

  // ---------------------------------------------------------------- reading

  /** A `w`-byte little-endian unsigned number at the front of `bs`, and what follows it. */
  function ReadUnsigned(bs: seq<Byte>, w: nat): Option<(nat, seq<Byte>)> {
    if |bs| < w then None else Some((FromLE(bs[..w]), bs[w..]))
  }

  function ReadText(bs: seq<Byte>, n: nat): Option<(string, seq<Byte>)> {
    if |bs| < n then None else Some((BytesChars(bs[..n]), bs[n..]))
  }

  function ReadEntry(bs: seq<Byte>): Option<(string, seq<Byte>)> {
    var len :- ReadUnsigned(bs, 2);
    ReadText(len.1, len.0)
  }

  function ReadEntries(bs: seq<Byte>, count: nat): Option<(seq<string>, seq<Byte>)>
    decreases count
  {
    if count == 0 then Some(([], bs))
    else
      var e :- ReadEntry(bs);
      var more :- ReadEntries(e.1, count - 1);
      Some(([e.0] + more.0, more.1))
  }

  function ReadInt64(bs: seq<Byte>): Option<(int, seq<Byte>)> {
    var u :- ReadUnsigned(bs, 8);
    Some((ToInt64(u.0), u.1))
  }

  function ReadTriple(bs: seq<Byte>): Option<(Triple, seq<Byte>)> {
    var n :- ReadUnsigned(bs, 8);
    var t :- ReadUnsigned(n.1, 8);
    var v :- ReadInt64(t.1);
    Some((Triple(n.0, t.0, v.0), v.1))
  }

  function ReadTriples(bs: seq<Byte>, count: nat): Option<(seq<Triple>, seq<Byte>)>
    decreases count
  {
    if count == 0 then Some(([], bs))
    else
      var t :- ReadTriple(bs);
      var more :- ReadTriples(t.1, count - 1);
      Some(([t.0] + more.0, more.1))
  }

  /** The uid and six figures, as a record without features. */
  function ReadFigures(bs: seq<Byte>): Option<(Record, seq<Byte>)> {
    var uid :- ReadUnsigned(bs, 4);
    var exec :- ReadUnsigned(uid.1, 8);
    var mem :- ReadUnsigned(exec.1, 8);
    var lock :- ReadUnsigned(mem.1, 8);
    var wait :- ReadUnsigned(lock.1, 8);
    var minor :- ReadUnsigned(wait.1, 8);
    var major :- ReadUnsigned(minor.1, 8);
    Some((Record(uid.0, exec.0, mem.0, lock.0, wait.0, minor.0, major.0, []), major.1))
  }

  /** A record; the two trailing counts must be zero. */
  function ReadRecord(bs: seq<Byte>): Option<(Record, seq<Byte>)> {
    var head :- ReadFigures(bs);
    var count :- ReadUnsigned(head.1, 4);
    var ts :- ReadTriples(count.1, count.0);
    var branches :- ReadUnsigned(ts.1, 4);
    var children :- ReadUnsigned(branches.1, 4);
    if branches.0 != 0 || children.0 != 0 then None
    else Some((head.0.(features := ts.0), children.1))
  }

  function ReadRecords(bs: seq<Byte>, count: nat): Option<(seq<Record>, seq<Byte>)>
    decreases count
  {
    if count == 0 then Some(([], bs))
    else
      var r :- ReadRecord(bs);
      var more :- ReadRecords(r.1, count - 1);
      Some(([r.0] + more.0, more.1))
  }

  /** The whole trace of one function; nothing may follow the last record. */
  function Decode(bs: seq<Byte>): Option<Layout> {
    var len :- ReadUnsigned(bs, 4);
    var name :- ReadText(len.1, len.0);
    var fcount :- ReadUnsigned(name.1, 4);
    var fnames :- ReadEntries(fcount.1, fcount.0);
    var tcount :- ReadUnsigned(fnames.1, 4);
    var types :- ReadEntries(tcount.1, tcount.0);
    var scount :- ReadUnsigned(types.1, 4);
    var records :- ReadRecords(scount.1, scount.0);
    if records.1 != [] then None else Some(Layout(name.0, fnames.0, types.0, records.0))
  }

  // ---------------------------------------------------------------- what fits

  /** A name that its u16 length field and one-byte characters hold exactly. */
  predicate EntryFits(s: string) {
    |s| < Two16 && Narrow(s)
  }

  predicate TripleFits(t: Triple) {
    0 <= t.nameOffset < Two64 && 0 <= t.typeOffset < Two64 && Int64Min <= t.value <= Int64Max
  }

  predicate RecordFits(r: Record) {
    && 0 <= r.uid < Two32
    && 0 <= r.execTime < Two64 && 0 <= r.memory < Two64 && 0 <= r.lockHolding < Two64
    && 0 <= r.waiting < Two64 && 0 <= r.minorFaults < Two64 && 0 <= r.majorFaults < Two64
    && |r.features| < Two32
    && forall i :: 0 <= i < |r.features| ==> TripleFits(r.features[i])
  }

  predicate Fits(l: Layout) {
    && |l.name| < Two32 && Narrow(l.name)
    && |l.fnames| < Two32 && (forall i :: 0 <= i < |l.fnames| ==> EntryFits(l.fnames[i]))
    && |l.types| < Two32 && (forall i :: 0 <= i < |l.types| ==> EntryFits(l.types[i]))
    && |l.records| < Two32 && (forall i :: 0 <= i < |l.records| ==> RecordFits(l.records[i]))
  }

  // ---------------------------------------------------------------- round trip

  lemma ReadUnsignedOf(x: int, w: nat, rest: seq<Byte>)
    requires 0 <= x < Pow256(w)
    ensures ReadUnsigned(Unsigned(x, w) + rest, w) == Some((x, rest))
  {
    var bs := Unsigned(x, w) + rest;
    assert bs[..w] == Unsigned(x, w);
    assert bs[w..] == rest;
    UnsignedFits(x, w);
  }

  lemma ReadU32Of(x: int, rest: seq<Byte>)
    requires 0 <= x < Two32
    ensures ReadUnsigned(U32(x) + rest, 4) == Some((x, rest))
  {
    Pow256Widths();
    ReadUnsignedOf(x, 4, rest);
  }

  lemma ReadU64Of(x: int, rest: seq<Byte>)
    requires 0 <= x < Two64
    ensures ReadUnsigned(U64(x) + rest, 8) == Some((x, rest))
  {
    Pow256Widths();
    ReadUnsignedOf(x, 8, rest);
  }

  lemma ReadTextOf(s: string, rest: seq<Byte>)
    requires Narrow(s)
    ensures ReadText(CharBytes(s) + rest, |s|) == Some((s, rest))
  {
    var bs := CharBytes(s) + rest;
    assert bs[..|s|] == CharBytes(s);
    assert bs[|s|..] == rest;
    CharsRoundTrip(s);
  }

  lemma ReadEntryOf(s: string, rest: seq<Byte>)
    requires EntryFits(s)
    ensures ReadEntry(Entry(s) + rest) == Some((s, rest))
  {
    Pow256Widths();
    ModBelow(|s|, Two16);
    assert s[..|s| % Two16] == s;
    assert Entry(s) + rest == U16(|s|) + (CharBytes(s) + rest);
    ReadUnsignedOf(|s|, 2, CharBytes(s) + rest);
    ReadTextOf(s, rest);
  }

  lemma {:induction false} EntriesCons(s: string, ss: seq<string>)
    ensures Entries([s] + ss) == Entry(s) + Entries(ss)
    decreases |ss|
  {
    if ss != [] {
      var init := ss[..|ss| - 1];
      assert ([s] + ss)[..|ss|] == [s] + init;
      assert ([s] + ss)[|ss|] == ss[|ss| - 1];
      EntriesCons(s, init);
      AppendAssoc(Entry(s), Entries(init), Entry(ss[|ss| - 1]));
    }
  }

  lemma {:induction false} ReadEntriesOf(ss: seq<string>, rest: seq<Byte>)
    requires forall i :: 0 <= i < |ss| ==> EntryFits(ss[i])
    ensures ReadEntries(Entries(ss) + rest, |ss|) == Some((ss, rest))
    decreases |ss|
  {
    if ss == [] {
      assert Entries(ss) + rest == rest;
    } else {
      var tail := ss[1..];
      assert ss == [ss[0]] + tail;
      EntriesCons(ss[0], tail);
      AppendAssoc(Entry(ss[0]), Entries(tail), rest);
      ReadEntryOf(ss[0], Entries(tail) + rest);
      ReadEntriesOf(tail, rest);
    }
  }

  lemma ReadTripleOf(t: Triple, rest: seq<Byte>)
    requires TripleFits(t)
    ensures ReadTriple(TripleBytes(t) + rest) == Some((t, rest))
  {
    Pow256Widths();
    var r3 := U64(t.value) + rest;
    var r2 := U64(t.typeOffset) + r3;
    assert TripleBytes(t) + rest == U64(t.nameOffset) + r2;
    ReadU64Of(t.nameOffset, r2);
    ReadU64Of(t.typeOffset, r3);
    ReadInt64Of(t.value, rest);
  }

  lemma ReadInt64Of(v: int, rest: seq<Byte>)
    requires Int64Min <= v <= Int64Max
    ensures ReadInt64(U64(v) + rest) == Some((v, rest))
  {
    var bs := U64(v) + rest;
    assert bs[..8] == U64(v);
    assert bs[8..] == rest;
    Int64RoundTrip(v);
  }

  lemma {:induction false} TriplesCons(t: Triple, ts: seq<Triple>)
    ensures TriplesBytes([t] + ts) == TripleBytes(t) + TriplesBytes(ts)
    decreases |ts|
  {
    if ts != [] {
      var init := ts[..|ts| - 1];
      assert ([t] + ts)[..|ts|] == [t] + init;
      assert ([t] + ts)[|ts|] == ts[|ts| - 1];
      TriplesCons(t, init);
      AppendAssoc(TripleBytes(t), TriplesBytes(init), TripleBytes(ts[|ts| - 1]));
    }
  }

  lemma {:induction false} ReadTriplesOf(ts: seq<Triple>, rest: seq<Byte>)
    requires forall i :: 0 <= i < |ts| ==> TripleFits(ts[i])
    ensures ReadTriples(TriplesBytes(ts) + rest, |ts|) == Some((ts, rest))
    decreases |ts|
  {
    if ts == [] {
      assert TriplesBytes(ts) + rest == rest;
    } else {
      var tail := ts[1..];
      assert ts == [ts[0]] + tail;
      TriplesCons(ts[0], tail);
      AppendAssoc(TripleBytes(ts[0]), TriplesBytes(tail), rest);
      ReadTripleOf(ts[0], TriplesBytes(tail) + rest);
      ReadTriplesOf(tail, rest);
    }
  }

  lemma ReadFiguresOf(r: Record, rest: seq<Byte>)
    requires RecordFits(r)
    ensures ReadFigures(FiguresBytes(r) + rest) == Some((r.(features := []), rest))
  {
    var r6 := U64(r.majorFaults) + rest;
    var r5 := U64(r.minorFaults) + r6;
    var r4 := U64(r.waiting) + r5;
    var r3 := U64(r.lockHolding) + r4;
    var r2 := U64(r.memory) + r3;
    var r1 := U64(r.execTime) + r2;
    assert FiguresBytes(r) + rest == U32(r.uid) + r1;
    ReadU32Of(r.uid, r1);
    ReadU64Of(r.execTime, r2);
    ReadU64Of(r.memory, r3);
    ReadU64Of(r.lockHolding, r4);
    ReadU64Of(r.waiting, r5);
    ReadU64Of(r.minorFaults, r6);
    ReadU64Of(r.majorFaults, rest);
  }

  lemma ReadRecordOf(r: Record, rest: seq<Byte>)
    requires RecordFits(r)
    ensures ReadRecord(RecordBytes(r) + rest) == Some((r, rest))
  {
    var z2 := U32(0) + rest;
    var z1 := U32(0) + z2;
    var t := TriplesBytes(r.features) + z1;
    var c := U32(|r.features|) + t;
    assert RecordBytes(r) + rest == FiguresBytes(r) + c;
    ReadFiguresOf(r, c);
    ReadU32Of(|r.features|, t);
    ReadTriplesOf(r.features, z1);
    ReadU32Of(0, z2);
    ReadU32Of(0, rest);
  }

  lemma {:induction false} RecordsCons(r: Record, rs: seq<Record>)
    ensures RecordsBytes([r] + rs) == RecordBytes(r) + RecordsBytes(rs)
    decreases |rs|
  {
    if rs != [] {
      var init := rs[..|rs| - 1];
      assert ([r] + rs)[..|rs|] == [r] + init;
      assert ([r] + rs)[|rs|] == rs[|rs| - 1];
      RecordsCons(r, init);
      AppendAssoc(RecordBytes(r), RecordsBytes(init), RecordBytes(rs[|rs| - 1]));
    }
  }

  lemma {:induction false} ReadRecordsOf(rs: seq<Record>, rest: seq<Byte>)
    requires forall i :: 0 <= i < |rs| ==> RecordFits(rs[i])
    ensures ReadRecords(RecordsBytes(rs) + rest, |rs|) == Some((rs, rest))
    decreases |rs|
  {
    if rs == [] {
      assert RecordsBytes(rs) + rest == rest;
    } else {
      var tail := rs[1..];
      assert rs == [rs[0]] + tail;
      RecordsCons(rs[0], tail);
      AppendAssoc(RecordBytes(rs[0]), RecordsBytes(tail), rest);
      ReadRecordOf(rs[0], RecordsBytes(tail) + rest);
      ReadRecordsOf(tail, rest);
    }
  }

  /** The bytes of a layout whose numbers and strings fit their fields decode to that layout. */
  lemma DecodeSerialize(l: Layout)
    requires Fits(l)
    ensures Decode(Serialize(l)) == Some(l)
  {
    Pow256Widths();
    var empty: seq<Byte> := [];
    var b7 := RecordsBytes(l.records) + empty;
    assert b7 == RecordsBytes(l.records);
    var b6 := U32(|l.records|) + b7;
    var b5 := Entries(l.types) + b6;
    var b4 := U32(|l.types|) + b5;
    var b3 := Entries(l.fnames) + b4;
    var b2 := U32(|l.fnames|) + b3;
    ModBelow(|l.name|, Two32);
    assert l.name[..|l.name| % Two32] == l.name;
    var b1 := CharBytes(l.name) + b2;
    Nest7(HeaderBytes(l.name), U32(|l.fnames|), Entries(l.fnames), U32(|l.types|), Entries(l.types), U32(|l.records|), b7);
    AppendAssoc(U32(|l.name|), CharBytes(l.name), b2);
    assert Serialize(l) == U32(|l.name|) + b1;
    ReadU32Of(|l.name|, b1);
    ReadTextOf(l.name, b2);
    ReadU32Of(|l.fnames|, b3);
    ReadEntriesOf(l.fnames, b4);
    ReadU32Of(|l.types|, b5);
    ReadEntriesOf(l.types, b6);
    ReadU32Of(|l.records|, b7);
    ReadRecordsOf(l.records, empty);
  }

  lemma Nest7<T>(a: seq<T>, b: seq<T>, c: seq<T>, d: seq<T>, e: seq<T>, f: seq<T>, g: seq<T>)
    ensures a + b + c + d + e + f + g == a + (b + (c + (d + (e + (f + g)))))
  {
    AppendAssoc(a + b + c + d + e, f, g);
    AppendAssoc(a + b + c + d, e, f + g);
    AppendAssoc(a + b + c, d, e + (f + g));
    AppendAssoc(a + b, c, d + (e + (f + g)));
    AppendAssoc(a, b, c + (d + (e + (f + g))));
  }

  /** Two layouts that fit and are written the same are the same layout. */
  lemma SerializeInjective(l1: Layout, l2: Layout)
    requires Fits(l1) && Fits(l2)
    requires Serialize(l1) == Serialize(l2)
    ensures l1 == l2
  {
    DecodeSerialize(l1);
    DecodeSerialize(l2);
  }

  // ---------------------------------------------------------------- where each name sits

  lemma {:induction false} EntriesAppend(a: seq<string>, b: seq<string>)
    ensures Entries(a + b) == Entries(a) + Entries(b)
    decreases |b|
  {
    if b == [] {
      assert a + b == a;
    } else {
      var init := b[..|b| - 1];
      assert (a + b)[..|a + b| - 1] == a + init;
      assert (a + b)[|a + b| - 1] == b[|b| - 1];
      calc {
        Entries(a + b);
        Entries(a + init) + Entry(b[|b| - 1]);
        { EntriesAppend(a, init); }
        Entries(a) + Entries(init) + Entry(b[|b| - 1]);
        { AppendAssoc(Entries(a), Entries(init), Entry(b[|b| - 1])); }
        Entries(a) + Entries(b);
      }
    }
  }

  /** A sequence is its prefix, its `i`-th element and its suffix. */
  lemma Around<T>(s: seq<T>, i: nat)
    requires i < |s|
    ensures s == s[..i] + ([s[i]] + s[i + 1..])
  {
  }

  lemma EntriesJoin3(a: seq<string>, x: string, r: seq<string>)
    ensures Entries(a + ([x] + r)) == Entries(a) + Entry(x) + Entries(r)
  {
    EntriesAppend(a, [x] + r);
    EntriesCons(x, r);
    AppendAssoc(Entries(a), Entry(x), Entries(r));
  }

  /** The table of names splits around its `i`-th entry. */
  lemma EntriesAround(ss: seq<string>, i: nat)
    requires i < |ss|
    ensures Entries(ss) == Entries(ss[..i]) + Entry(ss[i]) + Entries(ss[i + 1..])
  {
    Around(ss, i);
    EntriesJoin3(ss[..i], ss[i], ss[i + 1..]);
  }

  /** Where the feature-name table starts, and where the type table starts. */
  function NamesBase(name: string): nat {
    4 + |name| % Two32 + 4
  }

  function TypesBase(name: string, fnames: seq<string>): nat {
    NamesBase(name) + |Entries(fnames)| + 4
  }

  /** Reading an entry at byte `off` of `bs` gives `s`. */
  predicate EntryAt(bs: seq<Byte>, off: int, s: string) {
    0 <= off <= |bs| && ReadEntry(bs[off..]).Some? && ReadEntry(bs[off..]).value.0 == s
  }

  lemma ReadEntryInside(bs: seq<Byte>, front: seq<Byte>, s: string, tail: seq<Byte>)
    requires bs == front + (Entry(s) + tail) && EntryFits(s)
    ensures |front| <= |bs| && ReadEntry(bs[|front|..]) == Some((s, tail))
  {
    assert bs[|front|..] == Entry(s) + tail;
    ReadEntryOf(s, tail);
  }

  lemma RegroupNames<T>(h: seq<T>, u: seq<T>, a: seq<T>, e: seq<T>, b: seq<T>, p: seq<T>, q: seq<T>, r: seq<T>, t: seq<T>)
    ensures h + u + (a + e + b) + p + q + r + t == (h + u + a) + (e + (b + p + q + r + t))
  {
  }

  lemma RegroupTypes<T>(h: seq<T>, u: seq<T>, f: seq<T>, v: seq<T>, a: seq<T>, e: seq<T>, b: seq<T>, r: seq<T>, t: seq<T>)
    ensures h + u + f + v + (a + e + b) + r + t == (h + u + f + v + a) + (e + (b + r + t))
  {
  }

  /** The `i`-th feature name is read back from the bytes at its offset in the name table. */
  lemma FeatureNameAt(l: Layout, i: nat, off: int, s: string)
    requires i < |l.fnames| && l.fnames[i] == s && EntryFits(s)
    requires off == NamesBase(l.name) + |Entries(l.fnames[..i])|
    ensures EntryAt(Serialize(l), off, s)
  {
    Pow256Widths();
    var h, u, a, e, b := HeaderBytes(l.name), U32(|l.fnames|), Entries(l.fnames[..i]), Entry(l.fnames[i]), Entries(l.fnames[i + 1..]);
    var p, q, r, t := U32(|l.types|), Entries(l.types), U32(|l.records|), RecordsBytes(l.records);
    EntriesAround(l.fnames, i);
    RegroupNames(h, u, a, e, b, p, q, r, t);
    ReadEntryInside(Serialize(l), h + u + a, l.fnames[i], b + p + q + r + t);
  }

  /** The `i`-th type is read back from the bytes at its offset in the type table. */
  lemma TypeNameAt(l: Layout, i: nat, off: int, s: string)
    requires i < |l.types| && l.types[i] == s && EntryFits(s)
    requires off == TypesBase(l.name, l.fnames) + |Entries(l.types[..i])|
    ensures EntryAt(Serialize(l), off, s)
  {
    Pow256Widths();
    var h, u, f, v := HeaderBytes(l.name), U32(|l.fnames|), Entries(l.fnames), U32(|l.types|);
    var a, e, b := Entries(l.types[..i]), Entry(l.types[i]), Entries(l.types[i + 1..]);
    var r, t := U32(|l.records|), RecordsBytes(l.records);
    EntriesAround(l.types, i);
    RegroupTypes(h, u, f, v, a, e, b, r, t);
    ReadEntryInside(Serialize(l), h + u + f + v + a, l.types[i], b + r + t);
  }
}
