/**
 * `simple_merge` of trace_merge.cc: the caller log copied line by line into
 * a merged log, where each caller line that holds `RPC_end` is preceded by
 * the responder lines, tagged ` [server]`, from the responder cursor up to
 * and including the first one that holds ` <id> FUNC_END`. The responder
 * cursor only moves forward. The logs are sequences of lines.
 */
module Merger {
  import opened Wrappers
  import opened Text
  import SL = ServerLog
  import opened Bytes

  datatype MergeError =
    /** `substr` would throw `out_of_range` on the id of caller line `line`. */
    | BadRpcLine(line: nat)
    /** The responder log ends before the `FUNC_END` of caller line `line`'s RPC; the source then loops forever. */
    | ResponderExhausted(line: nat)

  /** A caller line that ends an RPC. */
  predicate IsRpcEnd(line: string) {
    Contains(line, "RPC_end")
  }

  /**
   * `line.substr(line.find("RPC_end ") + 8)`, with the `size_t` arithmetic
   * of the source: npos + 8 wraps to 7.
   */
  function RpcId(line: string): Option<string> {
    Substr(line, (FindPos(line, "RPC_end ") + 8) % SizeMod, Npos)
  }

  /** The id of an `RPC_end` line is always defined: `substr` never throws there. */
  lemma RpcIdDefined(line: string)
    requires IsRpcEnd(line)
    ensures RpcId(line).Some?
  {
    var p := FindPos(line, "RPC_end ");
    var m := Find(line, "RPC_end").value;
    assert 7 <= |line| by {
      assert MatchAt(line, "RPC_end", m);
    }
    if p + 8 >= SizeMod {
      assert (p + 8) % SizeMod == p + 8 - SizeMod by {
        ModBelow(p + 8 - SizeMod, SizeMod);
        assert p + 8 == 1 * SizeMod + (p + 8 - SizeMod);
      }
    } else {
      ModBelow(p + 8, SizeMod);
    }
  }

  /** With `RPC_end ` at `p`, the id is the rest of the line after it. */
  lemma RpcIdAfter(line: string, p: nat)
    requires Find(line, "RPC_end ") == Some(p) && |line| < Npos
    ensures RpcId(line) == Some(line[p + 8..])
  {
    assert MatchAt(line, "RPC_end ", p);
    assert FindPos(line, "RPC_end ") == p;
    ModBelow(p + 8, SizeMod);
  }

  /** The caller line `line` and the responder lines emitted just before it. */
  datatype Segment = Segment(served: seq<string>, line: string)

  /**
   * What caller line `i` (`line`) brings with the responder cursor at `k`:
   * an `RPC_end` line takes the responder lines through the first that
   * holds ` <id> FUNC_END`; any other line takes none. With the new cursor.
   */
  function SegmentOf(line: string, i: nat, server: seq<string>, k: nat): (r: Result<(Segment, nat), MergeError>)
    ensures r.Success? ==> r.value.0.line == line
    ensures r.Success? && k <= |server| ==> k <= r.value.1 <= |server| && r.value.0.served == server[k..r.value.1]
  {
    if IsRpcEnd(line) then
      var id :- Need(RpcId(line), BadRpcLine(i));
      var e :- Need(SL.ScanEnd(server, k, SL.EndKey(id)), ResponderExhausted(i));
      Success((Segment(server[k..e + 1], line), e + 1))
    else Success((Segment([], line), k))
  }

  /** The merge from caller line `i` on, with the responder cursor at `k`. */
  function MergeFrom(client: seq<string>, i: nat, server: seq<string>, k: nat): Result<seq<Segment>, MergeError>
    decreases |client| - i
  {
    if i >= |client| then Success([])
    else
      var step :- SegmentOf(client[i], i, server, k);
      var rest :- MergeFrom(client, i + 1, server, step.1);
      Success([step.0] + rest)
  }

  function Merge(client: seq<string>, server: seq<string>): Result<seq<Segment>, MergeError> {
    MergeFrom(client, 0, server, 0)
  }

  /** Responder lines as written to the merged log. */
  function Tag(lines: seq<string>): (r: seq<string>)
    ensures |r| == |lines| && forall j :: 0 <= j < |lines| ==> r[j] == lines[j] + " [server]"
  {
    seq(|lines|, j requires 0 <= j < |lines| => lines[j] + " [server]")
  }

  /** The lines of the merged log. */
  function Render(segs: seq<Segment>): seq<string> {
    if segs == [] then []
    else Render(segs[..|segs| - 1]) + Tag(segs[|segs| - 1].served) + [segs[|segs| - 1].line]
  }

  /** The merged log, or the error that stops the merge. */
  function MergedLog(client: seq<string>, server: seq<string>): Result<seq<string>, MergeError> {
    match Merge(client, server)
    case Success(segs) => Success(Render(segs))
    case Failure(e) => Failure(e)
  }

  /** All responder lines emitted, in order. */
  function Served(segs: seq<Segment>): seq<string> {
    if segs == [] then [] else segs[0].served + Served(segs[1..])
  }

  // ---------------------------------------------------------------- what the merge promises

  /** A successful merge from line `i` is that line's segment followed by the merge of the rest. */
  lemma MergeFromStep(client: seq<string>, i: nat, server: seq<string>, k: nat)
    requires i < |client| && MergeFrom(client, i, server, k).Success?
    ensures SegmentOf(client[i], i, server, k).Success?
    ensures var step := SegmentOf(client[i], i, server, k).value;
      MergeFrom(client, i + 1, server, step.1).Success? &&
      MergeFrom(client, i, server, k).value == [step.0] + MergeFrom(client, i + 1, server, step.1).value
  {
  }

  lemma SliceJoin<T>(s: seq<T>, a: nat, b: nat, c: nat)
    requires a <= b <= c <= |s|
    ensures s[a..b] + s[b..c] == s[a..c]
  {
  }

  /** Every caller line appears verbatim, once, in its order: segment `j` is caller line `i + j`. */
  lemma {:induction false} MergeKeepsClient(client: seq<string>, i: nat, server: seq<string>, k: nat)
    requires i <= |client| && MergeFrom(client, i, server, k).Success?
    ensures var segs := MergeFrom(client, i, server, k).value;
      |segs| == |client| - i && forall j :: 0 <= j < |segs| ==> segs[j].line == client[i + j]
    decreases |client| - i
  {
    if i < |client| {
      MergeFromStep(client, i, server, k);
      var step := SegmentOf(client[i], i, server, k).value;
      MergeKeepsClient(client, i + 1, server, step.1);
      var rest := MergeFrom(client, i + 1, server, step.1).value;
      var segs := MergeFrom(client, i, server, k).value;
      forall j | 0 < j < |segs| ensures segs[j].line == client[i + j] {
        assert segs[j] == rest[j - 1];
      }
    }
  }

  /** The responder lines are emitted in order from the cursor, none skipped or repeated. */
  lemma {:induction false} MergeAdvances(client: seq<string>, i: nat, server: seq<string>, k: nat)
    requires k <= |server| && MergeFrom(client, i, server, k).Success?
    ensures exists e :: k <= e <= |server| && Served(MergeFrom(client, i, server, k).value) == server[k..e]
    decreases |client| - i
  {
    var segs := MergeFrom(client, i, server, k).value;
    if i >= |client| {
      assert Served(segs) == server[k..k];
    } else {
      MergeFromStep(client, i, server, k);
      var step := SegmentOf(client[i], i, server, k).value;
      var k' := step.1;
      MergeAdvances(client, i + 1, server, k');
      var rest := MergeFrom(client, i + 1, server, k').value;
      var e :| k' <= e <= |server| && Served(rest) == server[k'..e];
      assert segs[1..] == rest;
      SliceJoin(server, k, k', e);
    }
  }

  /** From the start, the responder lines emitted are a prefix of the responder log. */
  lemma MergeServesPrefix(client: seq<string>, server: seq<string>)
    requires Merge(client, server).Success?
    ensures exists e :: 0 <= e <= |server| && Served(Merge(client, server).value) == server[..e]
  {
    MergeAdvances(client, 0, server, 0);
  }

  /**
   * The responder lines before an `RPC_end` caller line run through the
   * first one holding ` <id> FUNC_END` for that line's id; no other caller
   * line has responder lines before it.
   */
  predicate SegmentRule(s: Segment) {
    if IsRpcEnd(s.line) then
      RpcId(s.line).Some? && |s.served| > 0
      && Contains(s.served[|s.served| - 1], SL.EndKey(RpcId(s.line).value))
      && forall q :: 0 <= q < |s.served| - 1 ==> !Contains(s.served[q], SL.EndKey(RpcId(s.line).value))
    else s.served == []
  }

  lemma SegmentOfRule(line: string, i: nat, server: seq<string>, k: nat)
    requires SegmentOf(line, i, server, k).Success?
    ensures SegmentRule(SegmentOf(line, i, server, k).value.0)
  {
    if IsRpcEnd(line) {
      var key := SL.EndKey(RpcId(line).value);
      var e := SL.ScanEnd(server, k, key).value;
      SL.ScanEndSpec(server, k, key);
      var s := Segment(server[k..e + 1], line);
      forall q | 0 <= q < |s.served| - 1 ensures !Contains(s.served[q], key) {
        assert s.served[q] == server[k + q];
      }
    }
  }

  lemma {:induction false} MergeSegments(client: seq<string>, i: nat, server: seq<string>, k: nat)
    requires MergeFrom(client, i, server, k).Success?
    ensures var segs := MergeFrom(client, i, server, k).value;
      forall j :: 0 <= j < |segs| ==> SegmentRule(segs[j])
    decreases |client| - i
  {
    if i < |client| {
      MergeFromStep(client, i, server, k);
      var step := SegmentOf(client[i], i, server, k).value;
      SegmentOfRule(client[i], i, server, k);
      MergeSegments(client, i + 1, server, step.1);
      var rest := MergeFrom(client, i + 1, server, step.1).value;
      var segs := MergeFrom(client, i, server, k).value;
      forall j | 0 < j < |segs| ensures SegmentRule(segs[j]) {
        assert segs[j] == rest[j - 1];
      }
    }
  }

  /** A segment fails only on an `RPC_end` line whose `FUNC_END` the rest of the responder log lacks. */
  lemma SegmentOfFailure(line: string, i: nat, server: seq<string>, k: nat)
    requires SegmentOf(line, i, server, k).Failure?
    ensures SegmentOf(line, i, server, k).error == ResponderExhausted(i) && IsRpcEnd(line)
    ensures forall q :: k <= q < |server| ==> !Contains(server[q], SL.EndKey(RpcId(line).value))
  {
    RpcIdDefined(line);
    SL.ScanEndSpec(server, k, SL.EndKey(RpcId(line).value));
  }

  /** The merge fails only at an `RPC_end` caller line. */
  lemma {:induction false} MergeFailure(client: seq<string>, i: nat, server: seq<string>, k: nat)
    requires MergeFrom(client, i, server, k).Failure?
    ensures var e := MergeFrom(client, i, server, k).error;
      e.ResponderExhausted? && i <= e.line < |client| && IsRpcEnd(client[e.line])
    decreases |client| - i
  {
    var r := SegmentOf(client[i], i, server, k);
    if r.Failure? {
      SegmentOfFailure(client[i], i, server, k);
    } else {
      MergeFailure(client, i + 1, server, r.value.1);
    }
  }

  /** The caller log copied with no responder lines. */
  function Plain(lines: seq<string>): (segs: seq<Segment>)
    ensures |segs| == |lines| && forall j :: 0 <= j < |lines| ==> segs[j] == Segment([], lines[j])
  {
    seq(|lines|, j requires 0 <= j < |lines| => Segment([], lines[j]))
  }

  lemma {:induction false} MergeWithoutRpc(client: seq<string>, i: nat, server: seq<string>, k: nat)
    requires i <= |client| && forall j :: i <= j < |client| ==> !IsRpcEnd(client[j])
    ensures MergeFrom(client, i, server, k) == Success(Plain(client[i..]))
    decreases |client| - i
  {
    if i < |client| {
      MergeWithoutRpc(client, i + 1, server, k);
      assert Plain(client[i..]) == [Segment([], client[i])] + Plain(client[i + 1..]);
    } else {
      assert Plain(client[i..]) == [];
    }
  }

  lemma {:induction false} RenderPlain(lines: seq<string>)
    ensures Render(Plain(lines)) == lines
  {
    if lines != [] {
      var init := lines[..|lines| - 1];
      RenderPlain(init);
      assert Plain(lines)[..|lines| - 1] == Plain(init);
      assert Tag([]) == [];
    }
  }

  /** A caller log without RPCs is copied unchanged. */
  lemma MergeCopiesPlainLog(client: seq<string>, server: seq<string>)
    requires forall j :: 0 <= j < |client| ==> !IsRpcEnd(client[j])
    ensures MergedLog(client, server) == Success(client)
  {
    MergeWithoutRpc(client, 0, server, 0);
    assert client[0..] == client;
    RenderPlain(client);
  }

  // ---------------------------------------------------------------- the loop

  /** The merge so far (`done`) followed by the merge of the rest. */
  function Then(done: seq<Segment>, rest: Result<seq<Segment>, MergeError>): Result<seq<Segment>, MergeError> {
    match rest
    case Success(segs) => Success(done + segs)
    case Failure(e) => Failure(e)
  }

  /** Taking caller line `i`'s segment moves it from the rest of the merge to the part done. */
  lemma ThenStep(done: seq<Segment>, client: seq<string>, i: nat, server: seq<string>, k: nat, s: Segment, k': nat)
    requires i < |client| && SegmentOf(client[i], i, server, k) == Success((s, k'))
    ensures Then(done, MergeFrom(client, i, server, k)) == Then(done + [s], MergeFrom(client, i + 1, server, k'))
  {
    var rest := MergeFrom(client, i + 1, server, k');
    if rest.Success? {
      assert done + ([s] + rest.value) == (done + [s]) + rest.value;
    }
  }

  lemma RenderStep(segs: seq<Segment>, s: Segment)
    ensures Render(segs + [s]) == Render(segs) + Tag(s.served) + [s.line]
  {
    assert (segs + [s])[..|segs|] == segs;
  }

  lemma TagStep(lines: seq<string>, a: nat, b: nat)
    requires a <= b < |lines|
    ensures Tag(lines[a..b + 1]) == Tag(lines[a..b]) + [lines[b] + " [server]"]
  {
  }

  /** The scan from `k0` stops at the first line holding `key`. */
  lemma ScanEndAt(lines: seq<string>, k0: nat, k: nat, key: string)
    requires k0 <= k < |lines| && Contains(lines[k], key)
    requires forall q :: k0 <= q < k ==> !Contains(lines[q], key)
    ensures SL.ScanEnd(lines, k0, key) == Some(k)
  {
    SL.ScanEndSpec(lines, k0, key);
  }

  lemma ScanEndMissing(lines: seq<string>, k0: nat, key: string)
    requires forall q :: k0 <= q < |lines| ==> !Contains(lines[q], key)
    ensures SL.ScanEnd(lines, k0, key).None?
  {
    SL.ScanEndSpec(lines, k0, key);
  }

  /**
   * The responder lines from `k` up to and including the first one holding
   * `key`, written tagged; `found` is false when the log ends first.
   */
  method ServeRpc(merged: seq<string>, server: seq<string>, k: nat, key: string)
    returns (merged': seq<string>, k': nat, found: bool)
    requires k <= |server|
    ensures found <==> SL.ScanEnd(server, k, key).Some?
    ensures found ==> k' == SL.ScanEnd(server, k, key).value + 1 && merged' == merged + Tag(server[k..k'])
  {
    merged', k' := merged, k;
    assert Tag(server[k..k]) == [];
    while k' < |server| && !Contains(server[k'], key)
      invariant k <= k' <= |server|
      invariant merged' == merged + Tag(server[k..k'])
      invariant forall q :: k <= q < k' ==> !Contains(server[q], key)
      decreases |server| - k'
    {
      TagStep(server, k, k');
      merged' := merged' + [server[k'] + " [server]"];
      k' := k' + 1;
    }
    if k' >= |server| {
      ScanEndMissing(server, k, key);
      return merged', k', false;
    }
    ScanEndAt(server, k, k', key);
    TagStep(server, k, k');
    merged' := merged' + [server[k'] + " [server]"];
    k' := k' + 1;
    found := true;
  }

  /**
   * One caller line: for an `RPC_end` line, responder lines are read and
   * written tagged until the one holding ` <id> FUNC_END`, which is written
   * tagged too; then the caller line itself.
   */
  method MergeLine(merged: seq<string>, line: string, i: nat, server: seq<string>, k: nat)
    returns (merged': seq<string>, k': nat, r: Outcome<MergeError>, ghost s: Segment)
    requires k <= |server|
    ensures r.Pass? <==> SegmentOf(line, i, server, k).Success?
    ensures r.Fail? ==> SegmentOf(line, i, server, k) == Failure(r.error)
    ensures r.Pass? ==> SegmentOf(line, i, server, k) == Success((s, k')) && merged' == merged + Tag(s.served) + [line]
  {
    if IsRpcEnd(line) {
      RpcIdDefined(line);
      var id := RpcId(line).value;
      var found;
      merged', k', found := ServeRpc(merged, server, k, SL.EndKey(id));
      if !found {
        return merged', k', Fail(ResponderExhausted(i)), Segment([], line);
      }
      s := Segment(server[k..k'], line);
    } else {
      merged', k', s := merged, k, Segment([], line);
      assert Tag([]) == [];
    }
    merged' := merged' + [line];
    r := Pass;
  }

  /** `simple_merge`: the caller lines read one by one and merged in turn. */
  method SimpleMerge(client: seq<string>, server: seq<string>) returns (r: Result<seq<string>, MergeError>)
    ensures r == MergedLog(client, server)
  {
    var merged: seq<string> := [];
    var k: nat := 0;
    ghost var done: seq<Segment> := [];
    assert Then(done, Merge(client, server)) == Merge(client, server) by {
      if Merge(client, server).Success? {
        assert [] + Merge(client, server).value == Merge(client, server).value;
      }
    }
    var i := 0;
    while i < |client|
      invariant i <= |client| && k <= |server|
      invariant Merge(client, server) == Then(done, MergeFrom(client, i, server, k))
      invariant merged == Render(done)
      decreases |client| - i
    {
      ghost var k0 := k;
      var res;
      ghost var s;
      merged, k, res, s := MergeLine(merged, client[i], i, server, k);
      if res.Fail? {
        return Failure(res.error);
      }
      ThenStep(done, client, i, server, k0, s, k);
      RenderStep(done, s);
      done := done + [s];
      i := i + 1;
    }
    r := Success(merged);
    assert Merge(client, server) == Success(done) by {
      assert done + [] == done;
    }
  }
}
