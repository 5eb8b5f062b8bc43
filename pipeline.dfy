/**
 * The hand-off at the end of `generate_perf_trace` (trace_merge.cc:313):
 * the correlator's `func_list` goes straight to `encode_perf_trace`, which
 * iterates it, and each record's `sample_list`, in `unordered_map` order.
 * That order is unspecified, so it is an input here: a sequence of function
 * names and, per function, a sequence of run numbers, each listing every key
 * of its map exactly once.
 */
module Pipeline {
  import opened Wrappers
  import opened Bytes
  import C = Correlator
  import opened Encoder
  import EncoderRun

  predicate NoRepeats<T(==)>(s: seq<T>) {
    forall i, j :: 0 <= i < j < |s| ==> s[i] != s[j]
  }

  /** `us` is an iteration order of the run numbers of `m`: each key once, and nothing else. */
  predicate UidOrder(m: map<nat, C.Sample>, us: seq<nat>) {
    NoRepeats(us) && (forall j :: 0 <= j < |us| ==> us[j] in m) && (forall u :: u in m ==> u in us)
  }

  /** `keys` is an iteration order of `funcs`, and `uids` gives one of each record's samples. */
  predicate ValidOrder(funcs: C.Funcs, keys: seq<string>, uids: map<string, seq<nat>>) {
    NoRepeats(keys)
    && (forall i :: 0 <= i < |keys| ==> keys[i] in funcs && keys[i] in uids && UidOrder(funcs[keys[i]].samples, uids[keys[i]]))
    && (forall k :: k in funcs ==> k in keys)
  }

  /** A function record as the encoder's loop sees it: its name and its samples in the order `us`. */
  function ListingOf(r: C.FuncRecord, us: seq<nat>): (l: Listing)
    requires forall j :: 0 <= j < |us| ==> us[j] in r.samples
    ensures l.name == r.name && |l.samples| == |us|
    ensures forall j :: 0 <= j < |us| ==> l.samples[j] == r.samples[us[j]]
  {
    Listing(r.name, seq(|us|, j requires 0 <= j < |us| => r.samples[us[j]]))
  }

  /** The functions of `funcs` in the order `keys`, each with its samples in the order `uids` gives. */
  function ListingsOf(funcs: C.Funcs, keys: seq<string>, uids: map<string, seq<nat>>): (ls: seq<Listing>)
    requires ValidOrder(funcs, keys, uids)
    ensures |ls| == |keys|
    ensures forall i :: 0 <= i < |keys| ==> ls[i] == ListingOf(funcs[keys[i]], uids[keys[i]])
  {
    seq(|keys|, i requires 0 <= i < |keys| => ListingOf(funcs[keys[i]], uids[keys[i]]))
  }

  /** A sequence without repeats is as long as the set of its elements. */
  lemma {:induction false} CardOfNoRepeats<T>(s: seq<T>, st: set<T>)
    requires NoRepeats(s)
    requires forall x :: x in st <==> x in s
    ensures |s| == |st|
  {
    if s != [] {
      var init, x := s[..|s| - 1], s[|s| - 1];
      forall y | y in init
        ensures y != x
      {
        var i :| 0 <= i < |init| && init[i] == y;
        assert s[i] == y;
      }
      forall y
        ensures y in st - {x} <==> y in init
      {
        if y in s && y != x {
          var i :| 0 <= i < |s| && s[i] == y;
          assert init[i] == y;
        }
      }
      CardOfNoRepeats(init, st - {x});
    }
  }

  /**
   * A valid order enumerates `func_list` exactly: one listing per function
   * record, each record's listing named after it and holding every sample of
   * its `sample_list` exactly once.
   */
  lemma ListingsEnumerate(funcs: C.Funcs, keys: seq<string>, uids: map<string, seq<nat>>)
    requires ValidOrder(funcs, keys, uids)
    ensures |ListingsOf(funcs, keys, uids)| == |funcs|
    ensures forall k :: k in funcs ==>
      exists i :: 0 <= i < |keys| && keys[i] == k && ListingsOf(funcs, keys, uids)[i].name == funcs[k].name
    ensures forall i :: 0 <= i < |keys| ==>
      |ListingsOf(funcs, keys, uids)[i].samples| == |funcs[keys[i]].samples|
    ensures forall i, u :: 0 <= i < |keys| && u in funcs[keys[i]].samples ==>
      funcs[keys[i]].samples[u] in ListingsOf(funcs, keys, uids)[i].samples
  {
    var ls := ListingsOf(funcs, keys, uids);
    CardOfNoRepeats(keys, funcs.Keys);
    forall k | k in funcs
      ensures exists i :: 0 <= i < |keys| && keys[i] == k && ls[i].name == funcs[k].name
    {
      var i :| 0 <= i < |keys| && keys[i] == k;
      assert ls[i].name == funcs[k].name;
    }
    forall i | 0 <= i < |keys|
      ensures |ls[i].samples| == |funcs[keys[i]].samples|
    {
      CardOfNoRepeats(uids[keys[i]], funcs[keys[i]].samples.Keys);
    }
    forall i, u | 0 <= i < |keys| && u in funcs[keys[i]].samples
      ensures funcs[keys[i]].samples[u] in ls[i].samples
    {
      var us := uids[keys[i]];
      var j :| 0 <= j < |us| && us[j] == u;
      assert ls[i].samples[j] == funcs[keys[i]].samples[u];
    }
  }

  /** On success, one trace per function record the correlator built, each that record's own. */
  lemma OneTracePerFunction(funcs: C.Funcs, keys: seq<string>, uids: map<string, seq<nat>>)
    requires ValidOrder(funcs, keys, uids)
    requires EncodeAll(ListingsOf(funcs, keys, uids), TraceOf).Success?
    ensures |EncodeAll(ListingsOf(funcs, keys, uids), TraceOf).value| == |keys| == |funcs|
    ensures forall k :: k in funcs ==>
      exists i :: 0 <= i < |keys| && keys[i] == k && TraceOf(ListingOf(funcs[keys[i]], uids[keys[i]])) == Success(EncodeAll(ListingsOf(funcs, keys, uids), TraceOf).value[i])
  {
    var ls := ListingsOf(funcs, keys, uids);
    var files := EncodeAll(ls, TraceOf).value;
    EncodeAllEach(ls, TraceOf);
    CardOfNoRepeats(keys, funcs.Keys);
    forall k | k in funcs
      ensures exists i :: 0 <= i < |keys| && keys[i] == k && TraceOf(ListingOf(funcs[keys[i]], uids[keys[i]])) == Success(files[i])
    {
      var i :| 0 <= i < |keys| && keys[i] == k;
      assert TraceOf(ls[i]) == Success(files[i]);
    }
  }

  datatype PipelineError = TraceFailed(traceError: C.Error) | EncodeFailed(encodeError: EncodeError)

  /**
   * `generate_perf_trace` followed by `encode_perf_trace(func_list)`: the
   * files are the encoder's output for the correlator's own `func_list`,
   * in the iteration order `keys`/`uids`. The console output and the text
   * trace in between are not modelled.
   */
  method GenerateAndEncode(client: seq<string>, serverFile: seq<string>, keys: seq<string>, uids: map<string, seq<nat>>)
    returns (r: Result<seq<seq<Byte>>, PipelineError>)
    requires C.Trace(client, serverFile).Success? ==> ValidOrder(C.Trace(client, serverFile).value, keys, uids)
    ensures C.Trace(client, serverFile).Failure? ==> r == Failure(TraceFailed(C.Trace(client, serverFile).error))
    ensures C.Trace(client, serverFile).Success? ==>
      var files := EncodeAll(ListingsOf(C.Trace(client, serverFile).value, keys, uids), TraceOf);
      (files.Success? ==> r == Success(files.value)) && (files.Failure? ==> r == Failure(EncodeFailed(files.error)))
  {
    var funcs := C.GeneratePerfTrace(client, serverFile);
    if funcs.Failure? {
      return Failure(TraceFailed(funcs.error));
    }
    var files := EncoderRun.EncodePerfTrace(ListingsOf(funcs.value, keys, uids));
    if files.Failure? {
      return Failure(EncodeFailed(files.error));
    }
    r := Success(files.value);
  }
}
