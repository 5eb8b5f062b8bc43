/**
 * The responder-side half of the trace tool (trace_merge.cc): the line
 * buffer and start-line index that `preprocess_server_log` fills,
 * `get_line_num`, and the three scanners that walk one responder span from
 * its indexed start line to the first line holding `" <id> FUNC_END"`.
 * What the source leaves undefined (an id missing from the index, a scan
 * running past the last line, a vector read out of range) is a Failure here.
 */
module ServerLog {
  import opened Wrappers
  import opened Text

  datatype Error =
    | MalformedStartLine(line: nat)
    | BadRpcId(rpcId: string)
    | UnknownRpc(id: int)
    | LineOutOfRange(lineNum: int)
    | BadTimestamp(line: nat)
    | NoEnd(rpcId: string)
    | BadMallocSize(line: nat)
    | BadPagefault(line: nat)

  /** An index entry: (rpc id, 0-based line number of its start line). */
  type Entry = (int, int)

  const StartTag: string := " FUNC_START"

  function EndKey(rpcId: string): string { " " + rpcId + " FUNC_END" }
  function MallocKey(rpcId: string): string { " " + rpcId + " malloc" }
  function ReallocKey(rpcId: string): string { " " + rpcId + " realloc" }
  function FreeKey(rpcId: string): string { " " + rpcId + " free" }
  function PagefaultKey(rpcId: string): string { " " + rpcId + " pagefault" }

  // ---------------------------------------------------------------- the index

  /**
   * The entry recorded for start line number `n`. The source's tokenising
   * loop here keeps only the tokens before the last space, and reads the
   * third of them with `stoi`.
   */
  function StartEntry(line: string, n: nat): Result<Entry, Error> {
    var toks := Split(line, ' ');
    var head := toks[..|toks| - 1];
    if |head| < 3 then Failure(MalformedStartLine(n))
    else match Stoi(head[2])
      case Some(id) => Success((id, n))
      case None => Failure(MalformedStartLine(n))
  }

  /** The index of a responder log: one entry per line holding " FUNC_START", in file order. */
  function BuildIndex(file: seq<string>): Result<seq<Entry>, Error>
    decreases |file|
  {
    if file == [] then Success([])
    else
      var prev :- BuildIndex(file[..|file| - 1]);
      var n := |file| - 1;
      if Contains(file[n], StartTag) then
        var e :- StartEntry(file[n], n);
        Success(prev + [e])
      else Success(prev)
  }

  /** Every entry of a successful index is the entry of a start line of the file. */
  lemma {:induction false} BuildIndexEntries(file: seq<string>)
    requires BuildIndex(file).Success?
    ensures forall i :: 0 <= i < |BuildIndex(file).value| ==>
      var e := BuildIndex(file).value[i];
      0 <= e.1 < |file| && Contains(file[e.1], StartTag) && StartEntry(file[e.1], e.1) == Success(e)
    decreases |file|
  {
    if file != [] {
      var init := file[..|file| - 1];
      BuildIndexEntries(init);
      var prev := BuildIndex(init).value;
      var idx := BuildIndex(file).value;
      forall i | 0 <= i < |prev|
        ensures idx[i].1 < |file| && file[idx[i].1] == init[idx[i].1]
      {
        assert idx[i] == prev[i];
      }
    }
  }

  /** The entries of a successful index are in increasing line order. */
  lemma {:induction false} BuildIndexOrdered(file: seq<string>)
    requires BuildIndex(file).Success?
    ensures forall i, j :: 0 <= i < j < |BuildIndex(file).value| ==>
      BuildIndex(file).value[i].1 < BuildIndex(file).value[j].1
    decreases |file|
  {
    if file != [] {
      var init := file[..|file| - 1];
      BuildIndexOrdered(init);
      BuildIndexEntries(init);
    }
  }

  /** Every start line of the file has an entry in a successful index. */
  lemma {:induction false} BuildIndexComplete(file: seq<string>)
    requires BuildIndex(file).Success?
    ensures forall n :: 0 <= n < |file| && Contains(file[n], StartTag) ==>
      exists i :: 0 <= i < |BuildIndex(file).value| && BuildIndex(file).value[i].1 == n
    decreases |file|
  {
    if file != [] {
      var init := file[..|file| - 1];
      BuildIndexComplete(init);
      var prev := BuildIndex(init).value;
      var idx := BuildIndex(file).value;
      forall m | 0 <= m < |file| && Contains(file[m], StartTag)
        ensures exists i :: 0 <= i < |idx| && idx[i].1 == m
      {
        if m < |file| - 1 {
          assert file[m] == init[m];
          var i :| 0 <= i < |prev| && prev[i].1 == m;
          assert idx[i] == prev[i];
        } else {
          assert idx[|idx| - 1].1 == m;
        }
      }
    }
  }

  /** An index fails to build exactly when some start line is malformed. */
  lemma {:induction false} BuildIndexFails(file: seq<string>)
    ensures BuildIndex(file).Failure? <==>
            exists n :: 0 <= n < |file| && Contains(file[n], StartTag) && StartEntry(file[n], n).Failure?
    decreases |file|
  {
    if file != [] {
      var init := file[..|file| - 1];
      BuildIndexFails(init);
      if BuildIndex(init).Failure? {
        var n :| 0 <= n < |init| && Contains(init[n], StartTag) && StartEntry(init[n], n).Failure?;
        assert file[n] == init[n];
      } else {
        forall n | 0 <= n < |init| ensures file[n] == init[n] {}
      }
    }
  }

  /** Once a prefix fails to index, the whole file fails with the same error. */
  lemma {:induction false} BuildIndexPrefixFails(file: seq<string>, k: nat)
    requires k <= |file| && BuildIndex(file[..k]).Failure?
    ensures BuildIndex(file) == BuildIndex(file[..k])
    decreases |file|
  {
    if k == |file| {
      assert file[..k] == file;
    } else {
      var init := file[..|file| - 1];
      assert init[..k] == file[..k];
      BuildIndexPrefixFails(init, k);
    }
  }

  /** The position of the first entry for `id`. */
  function FirstEntry(idx: seq<Entry>, id: int): (r: Option<nat>)
    ensures r.Some? ==> r.value < |idx| && idx[r.value].0 == id
    ensures r.Some? ==> forall j :: 0 <= j < r.value ==> idx[j].0 != id
    ensures r.None? ==> forall j :: 0 <= j < |idx| ==> idx[j].0 != id
    decreases |idx|
  {
    if idx == [] then None
    else if idx[0].0 == id then Some(0)
    else match FirstEntry(idx[1..], id)
      case Some(i) => Some(i + 1)
      case None => None
  }

  /** `get_line_num`: the line of the first entry for `id`; None where the source returns an uninitialised value. */
  function FirstLine(idx: seq<Entry>, id: int): Option<int> {
    match FirstEntry(idx, id)
    case Some(i) => Some(idx[i].1)
    case None => None
  }

  // ---------------------------------------------------------------- spans

  /** The first line at or after `k` that holds `key`. */
  function ScanEnd(lines: seq<string>, k: nat, key: string): (r: Option<nat>)
    ensures r.Some? ==> k <= r.value < |lines|
    decreases |lines| - k
  {
    if k >= |lines| then None
    else if Contains(lines[k], key) then Some(k)
    else ScanEnd(lines, k + 1, key)
  }

  /** ScanEnd finds the FIRST line at or after `k` holding `key`, and None means no such line. */
  lemma {:induction false} ScanEndSpec(lines: seq<string>, k: nat, key: string)
    ensures ScanEnd(lines, k, key).Some? ==>
      var j := ScanEnd(lines, k, key).value;
      Contains(lines[j], key) && forall i :: k <= i < j ==> !Contains(lines[i], key)
    ensures ScanEnd(lines, k, key).None? ==> forall i :: k <= i < |lines| ==> !Contains(lines[i], key)
    decreases |lines| - k
  {
    if k < |lines| && !Contains(lines[k], key) {
      ScanEndSpec(lines, k + 1, key);
    }
  }

  /** The indexed start line of the span for `rpcId` (the string is read with `stoi`). */
  function SpanStart(lines: seq<string>, idx: seq<Entry>, rpcId: string): Result<nat, Error> {
    var id :- Need(Stoi(rpcId), BadRpcId(rpcId));
    var ln :- Need(FirstLine(idx, id), UnknownRpc(id));
    if 0 <= ln < |lines| then Success(ln) else Failure(LineOutOfRange(ln))
  }

  /**
   * `calc_server_time`: the first token of the end line minus the first
   * token of the start line, both read with `stol`.
   */
  function ServerTime(lines: seq<string>, idx: seq<Entry>, rpcId: string): Result<int, Error> {
    var ln :- SpanStart(lines, idx, rpcId);
    SpanTime(lines, ln, rpcId)
  }

  /** The server time of the span whose start line is `ln`. */
  function SpanTime(lines: seq<string>, ln: nat, rpcId: string): Result<int, Error>
    requires ln < |lines|
  {
    var start :- Timestamp(lines, ln);
    var j :- SpanEnd(lines, ln, rpcId);
    var end :- Timestamp(lines, j);
    Success(end - start)
  }

  /** The timestamp of line `n`: its first token read with `stol`. */
  function Timestamp(lines: seq<string>, n: nat): Result<int, Error>
    requires n < |lines|
  {
    Need(Stol(FirstToken(lines[n])), BadTimestamp(n))
  }

  /** The end line of the span starting at `ln`. */
  function SpanEnd(lines: seq<string>, ln: nat, rpcId: string): (r: Result<nat, Error>)
    ensures r.Success? ==> ln <= r.value < |lines|
  {
    Need(ScanEnd(lines, ln, EndKey(rpcId)), NoEnd(rpcId))
  }

  /** The memory figures of one span: last allocation size, allocations minus frees, realloc warnings printed. */
  datatype MemStats = MemStats(usage: int, leaks: int, reallocs: nat)

  /**
   * The size on an allocation line: `stol(line.substr(line.find("malloc ") + 7))`,
   * with the `size_t` arithmetic of the source (npos + 7 wraps to 6).
   */
  function MallocSize(line: string): Option<int> {
    var pos := (FindPos(line, "malloc ") + 7) % SizeMod;
    match Substr(line, pos, Npos)
    case Some(t) => Stol(t)
    case None => None
  }

  /** One iteration of calc_server_memory's loop body. */
  function MemLine(line: string, n: nat, rpcId: string, acc: MemStats): Result<MemStats, Error> {
    var acc1 :-
      if !Contains(line, MallocKey(rpcId)) then Success(acc)
      else match MallocSize(line)
        case Some(v) => Success(acc.(usage := v, leaks := acc.leaks + 1))
        case None => Failure(BadMallocSize(n));
    var acc2 := if Contains(line, ReallocKey(rpcId)) then acc1.(reallocs := acc1.reallocs + 1) else acc1;
    Success(if Contains(line, FreeKey(rpcId)) then acc2.(leaks := acc2.leaks - 1) else acc2)
  }

  /** calc_server_memory's loop from line `k` with the running figures `acc`. */
  function MemScan(lines: seq<string>, k: nat, rpcId: string, acc: MemStats): Result<MemStats, Error>
    decreases |lines| - k
  {
    if k >= |lines| then Failure(NoEnd(rpcId))
    else if Contains(lines[k], EndKey(rpcId)) then Success(acc)
    else
      var acc1 :- MemLine(lines[k], k, rpcId, acc);
      MemScan(lines, k + 1, rpcId, acc1)
  }

  /** `calc_server_memory`. */
  function ServerMemory(lines: seq<string>, idx: seq<Entry>, rpcId: string): Result<MemStats, Error> {
    var ln :- SpanStart(lines, idx, rpcId);
    MemScan(lines, ln, rpcId, MemStats(0, 0, 0))
  }

  /** The two counters on a page-fault line: its fifth and sixth tokens, read with `stol`. */
  function PagefaultCounts(line: string): Option<(int, int)> {
    var toks := Split(line, ' ');
    if |toks| < 6 then None
    else match (Stol(toks[4]), Stol(toks[5]))
      case (Some(a), Some(b)) => Some((a, b))
      case _ => None
  }

  /** One iteration of calc_server_pagefaults's loop body. */
  function PagefaultLine(line: string, n: nat, rpcId: string, acc: (int, int)): Result<(int, int), Error> {
    if !Contains(line, PagefaultKey(rpcId)) then Success(acc)
    else match PagefaultCounts(line)
      case Some(p) => Success(p)
      case None => Failure(BadPagefault(n))
  }

  function PagefaultScan(lines: seq<string>, k: nat, rpcId: string, acc: (int, int)): Result<(int, int), Error>
    decreases |lines| - k
  {
    if k >= |lines| then Failure(NoEnd(rpcId))
    else if Contains(lines[k], EndKey(rpcId)) then Success(acc)
    else
      var acc1 :- PagefaultLine(lines[k], k, rpcId, acc);
      PagefaultScan(lines, k + 1, rpcId, acc1)
  }

  /** `calc_server_pagefaults`; the result tuple starts value-initialised to (0, 0). */
  function ServerPagefaults(lines: seq<string>, idx: seq<Entry>, rpcId: string): Result<(int, int), Error> {
    var ln :- SpanStart(lines, idx, rpcId);
    PagefaultScan(lines, ln, rpcId, (0, 0))
  }

  // ---------------------------------------------------------------- counting lines

  /** The number of lines in [lo, hi) that hold `key`. */
  function Count(lines: seq<string>, lo: nat, hi: nat, key: string): nat
    requires hi <= |lines|
    decreases hi - lo
  {
    if lo >= hi then 0
    else (if Contains(lines[lo], key) then 1 else 0) + Count(lines, lo + 1, hi, key)
  }

  /** The last line in [lo, hi) that holds `key`. */
  function LastWith(lines: seq<string>, lo: nat, hi: nat, key: string): (r: Option<nat>)
    requires hi <= |lines|
    ensures r.Some? ==> lo <= r.value < hi
    decreases hi - lo
  {
    if lo >= hi then None
    else match LastWith(lines, lo + 1, hi, key)
      case Some(i) => Some(i)
      case None => if Contains(lines[lo], key) then Some(lo) else None
  }

  /** LastWith finds the LAST line of [lo, hi) holding `key`, and None means no such line. */
  lemma {:induction false} LastWithSpec(lines: seq<string>, lo: nat, hi: nat, key: string)
    requires hi <= |lines|
    ensures LastWith(lines, lo, hi, key).Some? ==>
      var i := LastWith(lines, lo, hi, key).value;
      Contains(lines[i], key) && forall m :: i < m < hi ==> !Contains(lines[m], key)
    ensures LastWith(lines, lo, hi, key).None? ==> forall m :: lo <= m < hi ==> !Contains(lines[m], key)
    decreases hi - lo
  {
    if lo < hi {
      LastWithSpec(lines, lo + 1, hi, key);
    }
  }

  predicate MallocsParse(lines: seq<string>, lo: nat, hi: nat, rpcId: string)
    requires hi <= |lines|
  {
    forall i :: lo <= i < hi && Contains(lines[i], MallocKey(rpcId)) ==> MallocSize(lines[i]).Some?
  }

  /** With an end line at `j` and every allocation line in range readable, the memory scan succeeds. */
  lemma {:induction false} MemScanSucceeds(lines: seq<string>, k: nat, j: nat, rpcId: string, acc: MemStats)
    requires ScanEnd(lines, k, EndKey(rpcId)) == Some(j)
    requires MallocsParse(lines, k, j, rpcId)
    ensures MemScan(lines, k, rpcId, acc).Success?
    decreases j - k
  {
    if k < j {
      var acc1 := MemLine(lines[k], k, rpcId, acc);
      assert acc1.Success? by {
        if Contains(lines[k], MallocKey(rpcId)) {
          assert MallocSize(lines[k]).Some?;
        }
      }
      assert MallocsParse(lines, k + 1, j, rpcId);
      MemScanSucceeds(lines, k + 1, j, rpcId, acc1.value);
    }
  }

  /** The memory usage of a span is the size on its LAST allocation line (assigned, not summed). */
  lemma {:induction false} MemScanUsage(lines: seq<string>, k: nat, j: nat, rpcId: string, acc: MemStats)
    requires ScanEnd(lines, k, EndKey(rpcId)) == Some(j)
    requires MemScan(lines, k, rpcId, acc).Success?
    ensures match LastWith(lines, k, j, MallocKey(rpcId))
      case Some(i) => MallocSize(lines[i]) == Some(MemScan(lines, k, rpcId, acc).value.usage)
      case None => MemScan(lines, k, rpcId, acc).value.usage == acc.usage
    decreases j - k
  {
    if k < j {
      MemScanUsage(lines, k + 1, j, rpcId, MemLine(lines[k], k, rpcId, acc).value);
    }
  }

  /** The leak count of a span is its allocation lines minus its free lines. */
  lemma {:induction false} MemScanLeaks(lines: seq<string>, k: nat, j: nat, rpcId: string, acc: MemStats)
    requires ScanEnd(lines, k, EndKey(rpcId)) == Some(j)
    requires MemScan(lines, k, rpcId, acc).Success?
    ensures MemScan(lines, k, rpcId, acc).value.leaks ==
      acc.leaks + Count(lines, k, j, MallocKey(rpcId)) - Count(lines, k, j, FreeKey(rpcId))
    decreases j - k
  {
    if k < j {
      MemScanLeaks(lines, k + 1, j, rpcId, MemLine(lines[k], k, rpcId, acc).value);
    }
  }

  /** Every realloc line of a span adds one warning and changes nothing else. */
  lemma {:induction false} MemScanReallocs(lines: seq<string>, k: nat, j: nat, rpcId: string, acc: MemStats)
    requires ScanEnd(lines, k, EndKey(rpcId)) == Some(j)
    requires MemScan(lines, k, rpcId, acc).Success?
    ensures MemScan(lines, k, rpcId, acc).value.reallocs == acc.reallocs + Count(lines, k, j, ReallocKey(rpcId))
    decreases j - k
  {
    if k < j {
      MemScanReallocs(lines, k + 1, j, rpcId, MemLine(lines[k], k, rpcId, acc).value);
    }
  }

  /** Without an end line the memory scan fails. */
  lemma {:induction false} MemScanNoEnd(lines: seq<string>, k: nat, rpcId: string, acc: MemStats)
    requires ScanEnd(lines, k, EndKey(rpcId)).None?
    ensures MemScan(lines, k, rpcId, acc).Failure?
    decreases |lines| - k
  {
    if k < |lines| {
      match MemLine(lines[k], k, rpcId, acc)
      case Success(acc1) => MemScanNoEnd(lines, k + 1, rpcId, acc1);
      case Failure(_) =>
    }
  }

  predicate PagefaultsParse(lines: seq<string>, lo: nat, hi: nat, rpcId: string)
    requires hi <= |lines|
  {
    forall i :: lo <= i < hi && Contains(lines[i], PagefaultKey(rpcId)) ==> PagefaultCounts(lines[i]).Some?
  }

  /** With an end line at `j` and every page-fault line in range readable, the page-fault scan succeeds. */
  lemma {:induction false} PagefaultScanSucceeds(lines: seq<string>, k: nat, j: nat, rpcId: string, acc: (int, int))
    requires ScanEnd(lines, k, EndKey(rpcId)) == Some(j)
    requires PagefaultsParse(lines, k, j, rpcId)
    ensures PagefaultScan(lines, k, rpcId, acc).Success?
    decreases j - k
  {
    if k < j {
      PagefaultScanSucceeds(lines, k + 1, j, rpcId, PagefaultLine(lines[k], k, rpcId, acc).value);
    }
  }

  /** The page faults of a span are tokens 4 and 5 of its LAST page-fault line, or the initial pair. */
  lemma {:induction false} PagefaultScanSpec(lines: seq<string>, k: nat, j: nat, rpcId: string, acc: (int, int))
    requires ScanEnd(lines, k, EndKey(rpcId)) == Some(j)
    requires PagefaultScan(lines, k, rpcId, acc).Success?
    ensures match LastWith(lines, k, j, PagefaultKey(rpcId))
      case Some(i) => PagefaultCounts(lines[i]) == Some(PagefaultScan(lines, k, rpcId, acc).value)
      case None => PagefaultScan(lines, k, rpcId, acc).value == acc
    decreases j - k
  {
    if k < j {
      PagefaultScanSpec(lines, k + 1, j, rpcId, PagefaultLine(lines[k], k, rpcId, acc).value);
    }
  }

  /** The end of a span is found from its start line on: lines before it never matter. */
  predicate AgreeFrom(lines: seq<string>, lines': seq<string>, k: nat) {
    |lines| == |lines'| && forall i :: k <= i < |lines| ==> lines[i] == lines'[i]
  }

  /** The end of a span is found from its start line on: lines before it never matter. */
  lemma {:induction false} ScanEndFrame(lines: seq<string>, lines': seq<string>, k: nat, key: string)
    requires AgreeFrom(lines, lines', k)
    ensures ScanEnd(lines, k, key) == ScanEnd(lines', k, key)
    decreases |lines| - k
  {
    if k < |lines| {
      ScanEndFrame(lines, lines', k + 1, key);
    }
  }

  /** The server time of a span is computed only from lines at or after its indexed start line. */
  lemma ServerTimeIgnoresEarlierLines(lines: seq<string>, lines': seq<string>, idx: seq<Entry>, rpcId: string, ln: nat)
    requires SpanStart(lines, idx, rpcId) == Success(ln)
    requires AgreeFrom(lines, lines', ln)
    ensures ServerTime(lines, idx, rpcId) == ServerTime(lines', idx, rpcId)
  {
    assert SpanStart(lines', idx, rpcId) == Success(ln);
    SpanTimeFrame(lines, lines', ln, rpcId);
  }

  lemma SpanTimeFrame(lines: seq<string>, lines': seq<string>, ln: nat, rpcId: string)
    requires ln < |lines| && AgreeFrom(lines, lines', ln)
    ensures SpanTime(lines, ln, rpcId) == SpanTime(lines', ln, rpcId)
  {
    ScanEndFrame(lines, lines', ln, EndKey(rpcId));
    assert Timestamp(lines, ln) == Timestamp(lines', ln);
    match SpanEnd(lines, ln, rpcId)
    case Success(j) =>
      assert Timestamp(lines, j) == Timestamp(lines', j);
    case Failure(_) =>
  }

  /** The first line at or after `k` holding `key` is the one ScanEnd finds. */
  lemma {:induction false} ScanEndFirst(lines: seq<string>, k: nat, j: nat, key: string)
    requires k <= j < |lines| && Contains(lines[j], key)
    requires forall i :: k <= i < j ==> !Contains(lines[i], key)
    ensures ScanEnd(lines, k, key) == Some(j)
    decreases j - k
  {
    if k < j {
      ScanEndFirst(lines, k + 1, j, key);
    }
  }

  /**
   * The server time is the first token of the first line at or after the
   * indexed line `ln` that holds " <id> FUNC_END", minus the first token of
   * line `ln`; an unreadable timestamp is an error.
   */
  lemma ServerTimeSpec(lines: seq<string>, idx: seq<Entry>, rpcId: string, ln: nat, j: nat)
    requires SpanStart(lines, idx, rpcId) == Success(ln)
    requires ln <= j < |lines| && Contains(lines[j], EndKey(rpcId))
    requires forall i :: ln <= i < j ==> !Contains(lines[i], EndKey(rpcId))
    ensures ServerTime(lines, idx, rpcId) ==
      match (Stol(FirstToken(lines[ln])), Stol(FirstToken(lines[j])))
      case (Some(a), Some(b)) => Success(b - a)
      case (None, _) => Failure(BadTimestamp(ln))
      case (_, None) => Failure(BadTimestamp(j))
  {
    SpanTimeSpec(lines, ln, j, rpcId);
  }

  lemma SpanTimeSpec(lines: seq<string>, ln: nat, j: nat, rpcId: string)
    requires ln <= j < |lines| && Contains(lines[j], EndKey(rpcId))
    requires forall i :: ln <= i < j ==> !Contains(lines[i], EndKey(rpcId))
    ensures SpanTime(lines, ln, rpcId) ==
      match (Stol(FirstToken(lines[ln])), Stol(FirstToken(lines[j])))
      case (Some(a), Some(b)) => Success(b - a)
      case (None, _) => Failure(BadTimestamp(ln))
      case (_, None) => Failure(BadTimestamp(j))
  {
    ScanEndFirst(lines, ln, j, EndKey(rpcId));
    SpanTimeAt(lines, ln, j, rpcId);
  }

  lemma SpanTimeAt(lines: seq<string>, ln: nat, j: nat, rpcId: string)
    requires ln <= j < |lines| && ScanEnd(lines, ln, EndKey(rpcId)) == Some(j)
    ensures SpanTime(lines, ln, rpcId) ==
      match (Stol(FirstToken(lines[ln])), Stol(FirstToken(lines[j])))
      case (Some(a), Some(b)) => Success(b - a)
      case (None, _) => Failure(BadTimestamp(ln))
      case (_, None) => Failure(BadTimestamp(j))
  {
    assert SpanEnd(lines, ln, rpcId) == Success(j);
  }

  /** Without an end line after the indexed line, the server time is an error. */
  lemma ServerTimeNoEnd(lines: seq<string>, idx: seq<Entry>, rpcId: string, ln: nat)
    requires SpanStart(lines, idx, rpcId) == Success(ln)
    requires forall i :: ln <= i < |lines| ==> !Contains(lines[i], EndKey(rpcId))
    ensures ServerTime(lines, idx, rpcId).Failure?
  {
    ScanEndSpec(lines, ln, EndKey(rpcId));
  }

  /** A remote call whose id has no index entry fails closed. */
  lemma UnknownRpcFails(lines: seq<string>, idx: seq<Entry>, rpcId: string, id: int)
    requires Stoi(rpcId) == Some(id)
    requires forall i :: 0 <= i < |idx| ==> idx[i].0 != id
    ensures ServerTime(lines, idx, rpcId) == Failure(UnknownRpc(id))
    ensures ServerMemory(lines, idx, rpcId) == Failure(UnknownRpc(id))
    ensures ServerPagefaults(lines, idx, rpcId) == Failure(UnknownRpc(id))
  {
  }

  // ---------------------------------------------------------------- the imperative tool

  /** The two global vectors of trace_merge.cc and the functions that read them. */
  class ServerLog {
    /** `server_log_lines`. */
    var lines: seq<string>
    /** `server_log_indices`. */
    var indices: seq<Entry>

    constructor ()
      ensures lines == [] && indices == []
    {
      lines, indices := [], [];
    }

    /**
     * `preprocess_server_log` over the lines of the responder log: push
     * every line, and an entry for every start line. It fails (the source
     * throws from `stoi` or reads past its token vector) on a malformed
     * start line.
     */
    method Preprocess(file: seq<string>) returns (r: Outcome<Error>)
      modifies this
      ensures r.Pass? <==> BuildIndex(file).Success?
      ensures r.Pass? ==> lines == old(lines) + file && indices == old(indices) + BuildIndex(file).value
      ensures r.Fail? ==> BuildIndex(file) == Failure(r.error)
    {
      var n := 0;
      while n < |file|
        invariant 0 <= n <= |file|
        invariant BuildIndex(file[..n]).Success?
        invariant lines == old(lines) + file[..n]
        invariant indices == old(indices) + BuildIndex(file[..n]).value
      {
        var line := file[n];
        assert file[..n + 1][..n] == file[..n];
        lines := lines + [line];
        if Contains(line, " FUNC_START") {
          var entry := ParseStartLine(line, n);
          if entry.Failure? {
            BuildIndexPrefixFails(file, n + 1);
            return Fail(entry.error);
          }
          indices := indices + [entry.value];
        }
        n := n + 1;
      }
      assert file[..n] == file;
      r := Pass;
    }

    /** `get_line_num`. */
    method GetLineNum(id: int) returns (r: Option<int>)
      ensures r == FirstLine(indices, id)
    {
      r := None;
      for i := 0 to |indices|
        invariant forall j :: 0 <= j < i ==> indices[j].0 != id
      {
        if indices[i].0 == id {
          r := Some(indices[i].1);
          break;
        }
      }
    }

    /** The start of `calc_server_*`: `get_line_num(stoi(RPC_id))` and the read of that line. */
    method LocateSpan(rpcId: string) returns (r: Result<nat, Error>)
      ensures r == SpanStart(lines, indices, rpcId)
    {
      var id := Stoi(rpcId);
      if id.None? {
        return Failure(BadRpcId(rpcId));
      }
      var ln := GetLineNum(id.value);
      if ln.None? {
        return Failure(UnknownRpc(id.value));
      }
      if !(0 <= ln.value < |lines|) {
        return Failure(LineOutOfRange(ln.value));
      }
      r := Success(ln.value);
    }

    /** `calc_server_time`. */
    method CalcServerTime(rpcId: string) returns (r: Result<int, Error>)
      ensures r == ServerTime(lines, indices, rpcId)
    {
      var span := LocateSpan(rpcId);
      if span.Failure? {
        return Failure(span.error);
      }
      r := TimeSpan(span.value, rpcId);
    }

    /** The body of `calc_server_time` once the start line is known. */
    method TimeSpan(start: nat, rpcId: string) returns (r: Result<int, Error>)
      requires start < |lines|
      ensures r == SpanTime(lines, start, rpcId)
    {
      var lineNum := start;
      var startTime := Stol(FirstToken(lines[lineNum]));
      if startTime.None? {
        return Failure(BadTimestamp(lineNum));
      }
      var key := " " + rpcId + " FUNC_END";
      while !Contains(lines[lineNum], key)
        invariant start <= lineNum < |lines|
        invariant ScanEnd(lines, lineNum, key) == ScanEnd(lines, start, key)
        decreases |lines| - lineNum
      {
        lineNum := lineNum + 1;
        if lineNum >= |lines| {
          return Failure(NoEnd(rpcId));
        }
      }
      var endTime := Stol(FirstToken(lines[lineNum]));
      if endTime.None? {
        return Failure(BadTimestamp(lineNum));
      }
      r := Success(endTime.value - startTime.value);
    }

    /** `calc_server_memory`; `reallocs` counts the warnings it prints. */
    method CalcServerMemory(rpcId: string) returns (r: Result<MemStats, Error>)
      ensures r == ServerMemory(lines, indices, rpcId)
    {
      var span := LocateSpan(rpcId);
      if span.Failure? {
        return Failure(span.error);
      }
      r := MemorySpan(span.value, rpcId);
    }

    /** The loop of `calc_server_memory` from the start line on. */
    method MemorySpan(start: nat, rpcId: string) returns (r: Result<MemStats, Error>)
      requires start < |lines|
      ensures r == MemScan(lines, start, rpcId, MemStats(0, 0, 0))
    {
      var lineNum := start;
      var stats := MemStats(0, 0, 0);
      while !Contains(lines[lineNum], " " + rpcId + " FUNC_END")
        invariant start <= lineNum < |lines|
        invariant MemScan(lines, lineNum, rpcId, stats) == MemScan(lines, start, rpcId, MemStats(0, 0, 0))
        decreases |lines| - lineNum
      {
        var next := MemLine(lines[lineNum], lineNum, rpcId, stats);
        if next.Failure? {
          return Failure(next.error);
        }
        stats := next.value;
        lineNum := lineNum + 1;
        if lineNum >= |lines| {
          return Failure(NoEnd(rpcId));
        }
      }
      r := Success(stats);
    }

    /** `calc_server_pagefaults`. */
    method CalcServerPagefaults(rpcId: string) returns (r: Result<(int, int), Error>)
      ensures r == ServerPagefaults(lines, indices, rpcId)
    {
      var span := LocateSpan(rpcId);
      if span.Failure? {
        return Failure(span.error);
      }
      r := PagefaultSpan(span.value, rpcId);
    }

    /** The loop of `calc_server_pagefaults` from the start line on. */
    method PagefaultSpan(start: nat, rpcId: string) returns (r: Result<(int, int), Error>)
      requires start < |lines|
      ensures r == PagefaultScan(lines, start, rpcId, (0, 0))
    {
      var lineNum := start;
      var result := (0, 0);
      while !Contains(lines[lineNum], " " + rpcId + " FUNC_END")
        invariant start <= lineNum < |lines|
        invariant PagefaultScan(lines, lineNum, rpcId, result) == PagefaultScan(lines, start, rpcId, (0, 0))
        decreases |lines| - lineNum
      {
        var next := AccountPagefault(lines[lineNum], lineNum, rpcId, result);
        if next.Failure? {
          return Failure(next.error);
        }
        result := next.value;
        lineNum := lineNum + 1;
        if lineNum >= |lines| {
          return Failure(NoEnd(rpcId));
        }
      }
      r := Success(result);
    }
  }

  /** The tokenising loop of preprocess_server_log and the `stoi` of the third token. */
  method ParseStartLine(line: string, n: nat) returns (r: Result<Entry, Error>)
    ensures r == StartEntry(line, n)
  {
    var head, rest := SplitOnSpaces(line);
    assert head == Split(line, ' ')[..|Split(line, ' ')| - 1];
    if |head| < 3 {
      return Failure(MalformedStartLine(n));
    }
    var index := Stoi(head[2]);
    if index.None? {
      return Failure(MalformedStartLine(n));
    }
    r := Success((index.value, n));
  }

  /** The body of calc_server_pagefaults's loop on one line. */
  method AccountPagefault(line: string, n: nat, rpcId: string, acc: (int, int)) returns (r: Result<(int, int), Error>)
    ensures r == PagefaultLine(line, n, rpcId, acc)
  {
    r := Success(acc);
    if Contains(line, " " + rpcId + " pagefault") {
      var lineVect := Tokenize(line);
      if |lineVect| < 6 {
        return Failure(BadPagefault(n));
      }
      var minor, major := Stol(lineVect[4]), Stol(lineVect[5]);
      if minor.None? || major.None? {
        return Failure(BadPagefault(n));
      }
      r := Success((minor.value, major.value));
    }
  }
}
