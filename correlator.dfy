/**
 * The caller-side correlator of trace_merge.cc (`generate_perf_trace`):
 * every caller-log line is split on spaces, its subject token names a
 * function and a run number, and its event kind updates that run's sample
 * in a map of function name to (run number to sample). Figures of a
 * remote call are taken from the responder log through the scanners of
 * ServerLog.
 */
module Correlator {
  import opened Wrappers
  import opened Text
  import SL = ServerLog
  import F = Feature

  // ---------------------------------------------------------------- data

  /** A feature read back from a start line: its name, type and value text. */
  datatype ParsedFeature = ParsedFeature(name: string, ftype: string, value: string)

  /** The per-run record (`sample`) with every field trace_merge.cc reads or writes. */
  datatype Sample = Sample(
    uid: nat,
    featureList: seq<ParsedFeature>,
    startTime: int,
    execTime: int,
    rpcStartTime: int,
    serverTime: int,
    networkTime: int,
    memoryUsage: int,
    memLeaks: int,
    serverMemoryUsage: int,
    serverMemLeaks: int,
    minPagefault: int,
    majPagefault: int,
    serverMinPagefault: int,
    serverMajPagefault: int,
    waitingTime: int,
    lockHoldingTime: int,
    serverWaitingTime: int,
    serverLockHoldingTime: int)

  /** A function's record: its name and its samples by run number (`sample_list`). */
  datatype FuncRecord = FuncRecord(name: string, samples: map<nat, Sample>)

  /** `func_list`. */
  type Funcs = map<string, FuncRecord>

  datatype Error =
    | MalformedLine(line: nat)
    | NoRecord(line: nat, name: string)
    | NoSample(line: nat, uid: nat)
    | ServerFailure(line: nat, cause: SL.Error)
    | BadServerLog(cause: SL.Error)
    | NoFinalEnd

  /** The counters a caller line adds to. */
  datatype Counter =
    | MemoryUsage | MemLeaks | WaitingTime | LockHoldingTime | MinPagefault | MajPagefault
    | ServerTime | ServerMemoryUsage | ServerMemLeaks | ServerMinPagefault | ServerMajPagefault

  function Read(c: Counter, s: Sample): int {
    match c
    case MemoryUsage => s.memoryUsage
    case MemLeaks => s.memLeaks
    case WaitingTime => s.waitingTime
    case LockHoldingTime => s.lockHoldingTime
    case MinPagefault => s.minPagefault
    case MajPagefault => s.majPagefault
    case ServerTime => s.serverTime
    case ServerMemoryUsage => s.serverMemoryUsage
    case ServerMemLeaks => s.serverMemLeaks
    case ServerMinPagefault => s.serverMinPagefault
    case ServerMajPagefault => s.serverMajPagefault
  }

  /** `make_sample(uid)`: a run with that number, no features and every figure 0. */
  function MakeSample(uid: nat): (s: Sample)
    ensures s.uid == uid && s.featureList == []
    ensures s.startTime == 0 && s.execTime == 0 && s.rpcStartTime == 0 && s.networkTime == 0
    ensures s.serverWaitingTime == 0 && s.serverLockHoldingTime == 0
    ensures forall c: Counter :: Read(c, s) == 0
  {
    Sample(uid, [], 0, 0, 0, 0, 0, 0, 0, 0, 0, 0, 0, 0, 0, 0, 0, 0, 0)
  }

  /** `make_custom_func(f_name)`: a record with that name and no samples. */
  function MakeFuncRecord(n: string): (f: FuncRecord)
    ensures f.name == n && f.samples == map[]
  {
    FuncRecord(n, map[])
  }

  // ---------------------------------------------------------------- the subject token

  /** The number of leading characters of `s` that are not decimal digits. */
  function NonDigitPrefix(s: string): (n: nat)
    ensures n <= |s|
  {
    if s != [] && !IsDigit(s[0]) then 1 + NonDigitPrefix(s[1..]) else 0
  }

  /**
   * `regex_replace(t, "[^0-9]*([0-9]+).*", "$1")`: the first run of digits
   * when there is one, and otherwise `t` unchanged (no match).
   */
  function UidText(t: string): string {
    var p := NonDigitPrefix(t);
    if p == |t| then t else t[p..][..DigitPrefix(t[p..])]
  }

  /** `uint32_t uid = stoi(...)`: the run number, None when `stoi` throws. */
  function SubjectUid(t: string): Option<nat> {
    match Stoi(UidText(t))
    case Some(v) => Some(v % 0x1_0000_0000)
    case None => None
  }

  /**
   * `regex_replace(t, "([^0-9]+).*", "$1")`: the first match starts at the
   * first non-digit, so the leading digits stay in front of the first
   * non-digit run and the rest is dropped; a token of digits only does not
   * match and is kept whole.
   */
  function FuncName(t: string): string {
    var d := DigitPrefix(t);
    t[..d + NonDigitPrefix(t[d..])]
  }

  // ---------------------------------------------------------------- feature tokens

  /**
   * One `name=type&value` token of a start line, cut with `substr` at the
   * positions `find("=")` and `find("&")` return, in `size_t` arithmetic
   * (a missing `=` or `&` is npos, and npos + 1 wraps to 0). None stands
   * for `substr` throwing.
   */
  function ParseFeatureToken(tok: string): Option<ParsedFeature> {
    var eq := FindPos(tok, "=");
    var amp := FindPos(tok, "&");
    var name :- Substr(tok, 0, eq);
    var ftype :- Substr(tok, (eq + 1) % SizeMod, (amp - eq - 1) % SizeMod);
    var value :- Substr(tok, (amp + 1) % SizeMod, Npos);
    Some(ParsedFeature(name, ftype, value))
  }

  /** `substr` never throws on a feature token: both cut positions lie within it. */
  lemma ParseFeatureTokenTotal(tok: string)
    ensures ParseFeatureToken(tok).Some?
  {
    var eq := FindPos(tok, "=");
    var amp := FindPos(tok, "&");
    assert (eq + 1) % SizeMod <= |tok| by {
      if eq < Npos { assert eq + 1 < SizeMod; }
    }
    assert (amp + 1) % SizeMod <= |tok| by {
      if amp < Npos { assert amp + 1 < SizeMod; }
    }
  }

  /** The features of a start line's tokens, in order. */
  function ParseFeatures(toks: seq<string>): Option<seq<ParsedFeature>>
    decreases |toks|
  {
    if toks == [] then Some([])
    else
      var init :- ParseFeatures(toks[..|toks| - 1]);
      var f :- ParseFeatureToken(toks[|toks| - 1]);
      Some(init + [f])
  }

  /** Every token yields one feature, in token order. */
  lemma {:induction false} ParseFeaturesAll(toks: seq<string>)
    ensures ParseFeatures(toks).Some?
    ensures |ParseFeatures(toks).value| == |toks|
    ensures forall k :: 0 <= k < |toks| ==> Some(ParseFeatures(toks).value[k]) == ParseFeatureToken(toks[k])
    decreases |toks|
  {
    if toks != [] {
      var init := toks[..|toks| - 1];
      ParseFeaturesAll(init);
      ParseFeatureTokenTotal(toks[|toks| - 1]);
    }
  }

  /** A token written as `name=type&value` reads back as those three parts. */
  lemma FeatureTokenRoundTrip(name: string, ftype: string, value: string)
    requires '=' !in name && '&' !in name && '&' !in ftype
    requires |name| + |ftype| + |value| + 2 < Npos
    ensures ParseFeatureToken(name + "=" + ftype + "&" + value) == Some(ParsedFeature(name, ftype, value))
  {
    var tok := name + "=" + ftype + "&" + value;
    var i, j := |name|, |name| + 1 + |ftype|;
    assert tok[i] == '=' && tok[..i] == name;
    assert tok[j] == '&' && tok[i + 1..j] == ftype && tok[j + 1..] == value;
    assert tok[..j] == name + "=" + ftype;
    FirstCharAt(tok, '=', i);
    FirstCharAt(tok, '&', j);
    CutsAt(tok, i, j);
  }

  /** With `=` at `i` before `&` at `j`, the three parts are the text around them. */
  lemma CutsAt(tok: string, i: nat, j: nat)
    requires i < j < |tok| < Npos
    requires FindPos(tok, "=") == i && FindPos(tok, "&") == j
    ensures ParseFeatureToken(tok) == Some(ParsedFeature(tok[..i], tok[i + 1..j], tok[j + 1..]))
  {
  }

  /** `find` of a one-character string is the first index holding that character. */
  lemma FirstCharAt(s: string, c: char, i: nat)
    requires i < |s| < Npos && s[i] == c && c !in s[..i]
    ensures FindPos(s, [c]) == i
  {
    assert MatchAt(s, [c], i);
    FindCharSome(s, c);
  }

  /** A token with no `&` at all: npos + 1 wraps to 0, so the value is the whole token. */
  lemma FeatureTokenWithoutAmpersand(name: string, rest: string)
    requires '=' !in name && '&' !in name && '&' !in rest
    requires |name| + |rest| + 1 < Npos
    ensures ParseFeatureToken(name + "=" + rest) == Some(ParsedFeature(name, rest, name + "=" + rest))
  {
    var tok := name + "=" + rest;
    var i := |name|;
    assert tok[i] == '=' && tok[..i] == name && tok[i + 1..] == rest;
    FirstCharAt(tok, '=', i);
    FindCharNone(tok, '&');
    CutsBeforeNpos(tok, i);
  }

  /** With `=` at `i` and no `&`, the type runs to the end and the value is the whole token. */
  lemma CutsBeforeNpos(tok: string, i: nat)
    requires i < |tok| < Npos
    requires FindPos(tok, "=") == i && FindPos(tok, "&") == Npos
    ensures ParseFeatureToken(tok) == Some(ParsedFeature(tok[..i], tok[i + 1..], tok))
  {
  }

  // ---------------------------------------------------------------- one line

  /** The event kinds the loop tests for, in the order it tests them; any other kind is ignored. */
  datatype Event =
    | FuncStart | Malloc | Free | RpcStart | RpcEnd | Pagefault
    | MutexLock | MutexUnlock | CondWaitReturned | CondTimedwaitReturned | FuncEnd
    | Unrecognised

  function EventOf(kind: string): Event {
    if kind == "FUNC_START" then FuncStart
    else if kind == "malloc" then Malloc
    else if kind == "free" then Free
    else if kind == "RPC_start" then RpcStart
    else if kind == "RPC_end" then RpcEnd
    else if kind == "pagefault" then Pagefault
    else if kind == "mutex_lock" then MutexLock
    else if kind == "mutex_unlock" then MutexUnlock
    else if kind == "cond_wait_returned" then CondWaitReturned
    else if kind == "cond_timedwait_returned" then CondTimedwaitReturned
    else if kind == "FUNC_END" then FuncEnd
    else Unrecognised
  }

  /** The three waits whose token 3 is added to the waiting time. */
  predicate IsWait(e: Event) {
    e == MutexLock || e == CondWaitReturned || e == CondTimedwaitReturned
  }

  /** `stoi(line_vect[i])`; a missing token is a read out of range. */
  function Arg(toks: seq<string>, i: nat, n: nat): Result<int, Error> {
    if i < |toks| then Need(Stoi(toks[i]), MalformedLine(n)) else Failure(MalformedLine(n))
  }

  /** `stol(line_vect[0])`. */
  function Time(toks: seq<string>, n: nat): Result<int, Error>
    requires |toks| >= 1
  {
    Need(Stol(toks[0]), MalformedLine(n))
  }

  /** A responder-log failure, tagged with the caller line that asked for it. */
  function Server<T>(r: Result<T, SL.Error>, n: nat): Result<T, Error> {
    match r
    case Success(v) => Success(v)
    case Failure(e) => Failure(ServerFailure(n, e))
  }

  /** The `RPC_end <id>` update: server figures for that id and the network time around them. */
  function AccountRpcEnd(s: Sample, toks: seq<string>, n: nat, lines: seq<string>, idx: seq<SL.Entry>): Result<Sample, Error>
    requires |toks| >= 3
  {
    if |toks| < 4 then Failure(MalformedLine(n))
    else
      var st :- Server(SL.ServerTime(lines, idx, toks[3]), n);
      var now :- Time(toks, n);
      var mem :- Server(SL.ServerMemory(lines, idx, toks[3]), n);
      var pf :- Server(SL.ServerPagefaults(lines, idx, toks[3]), n);
      Success(AddServerFigures(s, st, now, mem, pf))
  }

  /** The fields an `RPC_end` line adds to, given the responder's figures and the caller's clock. */
  function AddServerFigures(s: Sample, st: int, now: int, mem: SL.MemStats, pf: (int, int)): Sample {
    s.(serverTime := s.serverTime + st,
       networkTime := s.networkTime + (now - s.rpcStartTime - st),
       serverMemoryUsage := s.serverMemoryUsage + mem.usage,
       serverMemLeaks := s.serverMemLeaks + mem.leaks,
       serverMinPagefault := s.serverMinPagefault + pf.0,
       serverMajPagefault := s.serverMajPagefault + pf.1)
  }

  /** The update an event other than a start makes to its sample. */
  function Account(s: Sample, toks: seq<string>, n: nat, lines: seq<string>, idx: seq<SL.Entry>): Result<Sample, Error>
    requires |toks| >= 3
  {
    match EventOf(toks[2])
    case Malloc =>
      var v :- Arg(toks, 3, n);
      Success(s.(memoryUsage := s.memoryUsage + v, memLeaks := s.memLeaks + 1))
    case Free =>
      Success(s.(memLeaks := s.memLeaks - 1))
    case RpcStart =>
      var t :- Time(toks, n);
      Success(s.(rpcStartTime := t))
    case RpcEnd =>
      AccountRpcEnd(s, toks, n, lines, idx)
    case Pagefault =>
      var minor :- Arg(toks, 3, n);
      var major :- Arg(toks, 4, n);
      Success(s.(minPagefault := s.minPagefault + minor, majPagefault := s.majPagefault + major))
    case MutexUnlock =>
      var h :- Arg(toks, 3, n);
      Success(s.(lockHoldingTime := s.lockHoldingTime + h))
    case FuncEnd =>
      var t :- Time(toks, n);
      Success(s.(execTime := t - s.startTime))
    case MutexLock | CondWaitReturned | CondTimedwaitReturned =>
      var w :- Arg(toks, 3, n);
      Success(s.(waitingTime := s.waitingTime + w))
    case FuncStart | Unrecognised =>
      Success(s)
  }

  /** The sample of run `uid` of function `name`, if there is one. */
  function SampleOf(funcs: Funcs, name: string, uid: nat): Option<Sample> {
    if name in funcs && uid in funcs[name].samples then Some(funcs[name].samples[uid]) else None
  }

  /** `func_list[name]->sample_list[uid] = s` on an existing record. */
  function Put(funcs: Funcs, name: string, uid: nat, s: Sample): (r: Funcs)
    requires name in funcs
    ensures SampleOf(r, name, uid) == Some(s)
    ensures forall m, u :: (m != name || u != uid) ==> SampleOf(r, m, u) == SampleOf(funcs, m, u)
  {
    funcs[name := funcs[name].(samples := funcs[name].samples[uid := s])]
  }

  /** `func_list[name]->sample_list[uid]`, which must exist (else a null pointer is dereferenced). */
  function FindSample(funcs: Funcs, name: string, uid: nat, n: nat): Result<Sample, Error> {
    if name !in funcs then Failure(NoRecord(n, name))
    else if uid !in funcs[name].samples then Failure(NoSample(n, uid))
    else Success(funcs[name].samples[uid])
  }

  /** The `FUNC_START` branch: a fresh sample with the parsed features and the start time. */
  function StartSample(funcs: Funcs, name: string, uid: nat, toks: seq<string>, n: nat): Result<Funcs, Error>
    requires |toks| >= 3
  {
    var fl :- Need(ParseFeatures(toks[3..]), MalformedLine(n));
    var funcs1 := if uid == 1 then funcs[name := MakeFuncRecord(name)] else funcs;
    if name !in funcs1 then Failure(NoRecord(n, name))
    else
      var start :- Time(toks, n);
      Success(Put(funcs1, name, uid, MakeSample(uid).(featureList := fl, startTime := start)))
  }

  /** The body of `generate_perf_trace`'s loop on caller line number `n`. */
  function Step(funcs: Funcs, line: string, n: nat, lines: seq<string>, idx: seq<SL.Entry>): Result<Funcs, Error> {
    var toks := Split(line, ' ');
    if |toks| < 2 then Failure(MalformedLine(n))
    else
      var uid :- Need(SubjectUid(toks[1]), MalformedLine(n));
      var name := FuncName(toks[1]);
      if |toks| < 3 then Failure(MalformedLine(n))
      else if EventOf(toks[2]) == FuncStart then StartSample(funcs, name, uid, toks, n)
      else if EventOf(toks[2]) != Unrecognised then
        var s :- FindSample(funcs, name, uid, n);
        var s1 :- Account(s, toks, n, lines, idx);
        Success(Put(funcs, name, uid, s1))
      else Success(funcs)
  }

  /** The loop over the caller lines from number `k` on. */
  function Run(funcs: Funcs, client: seq<string>, k: nat, lines: seq<string>, idx: seq<SL.Entry>): Result<Funcs, Error>
    decreases |client| - k
  {
    if k >= |client| then Success(funcs)
    else
      var funcs1 :- Step(funcs, client[k], k, lines, idx);
      Run(funcs1, client, k + 1, lines, idx)
  }

  /** The check after the loop: the last line read was a `FUNC_END` (an empty log has no tokens to read). */
  predicate EndsWithFuncEnd(client: seq<string>) {
    |client| > 0 && var toks := Split(client[|client| - 1], ' '); |toks| >= 3 && toks[2] == "FUNC_END"
  }

  /**
   * `generate_perf_trace` on a caller log and a responder log: index the
   * responder log, run every caller line, then insist on a final `FUNC_END`.
   */
  function Trace(client: seq<string>, serverFile: seq<string>): Result<Funcs, Error> {
    var idx :- match SL.BuildIndex(serverFile)
      case Success(i) => Success(i)
      case Failure(e) => Failure(BadServerLog(e));
    Correlate(client, serverFile, idx)
  }

  /** The caller log run against an indexed responder log, then the final `FUNC_END` check. */
  function Correlate(client: seq<string>, lines: seq<string>, idx: seq<SL.Entry>): Result<Funcs, Error> {
    var funcs :- Run(map[], client, 0, lines, idx);
    if EndsWithFuncEnd(client) then Success(funcs) else Failure(NoFinalEnd)
  }

  // ---------------------------------------------------------------- what a line adds

  /** The subject (function name, run number) of a line that has an event kind. */
  function Subject(line: string): Option<(string, nat)> {
    var toks := Split(line, ' ');
    if |toks| < 3 then None
    else match SubjectUid(toks[1])
      case Some(u) => Some((FuncName(toks[1]), u))
      case None => None
  }

  /** The kind of a line: its third token. */
  function Kind(line: string): string {
    var toks := Split(line, ' ');
    if |toks| >= 3 then toks[2] else ""
  }

  function ArgValue(toks: seq<string>, i: nat): int {
    if i < |toks| then match Stoi(toks[i]) case Some(v) => v case None => 0 else 0
  }

  function ValueOr<T>(r: Result<T, SL.Error>, d: T): T {
    match r case Success(v) => v case Failure(_) => d
  }

  /**
   * What a line of kind `Kind(line)` adds to counter `c` of its sample,
   * written per counter: sizes of allocations, +1 per allocation and -1 per
   * free, the waits and lock holds, page-fault counts, and on a remote-call
   * end the responder's figures for that call.
   */
  function Effect(c: Counter, line: string, lines: seq<string>, idx: seq<SL.Entry>): int {
    var toks := Split(line, ' ');
    var e := EventOf(Kind(line));
    var id := if |toks| >= 4 then toks[3] else "";
    match c
    case MemoryUsage => if e == Malloc then ArgValue(toks, 3) else 0
    case MemLeaks => if e == Malloc then 1 else if e == Free then -1 else 0
    case WaitingTime => if IsWait(e) then ArgValue(toks, 3) else 0
    case LockHoldingTime => if e == MutexUnlock then ArgValue(toks, 3) else 0
    case MinPagefault => if e == Pagefault then ArgValue(toks, 3) else 0
    case MajPagefault => if e == Pagefault then ArgValue(toks, 4) else 0
    case ServerTime => if e == RpcEnd then ValueOr(SL.ServerTime(lines, idx, id), 0) else 0
    case ServerMemoryUsage => if e == RpcEnd then ValueOr(SL.ServerMemory(lines, idx, id), SL.MemStats(0, 0, 0)).usage else 0
    case ServerMemLeaks => if e == RpcEnd then ValueOr(SL.ServerMemory(lines, idx, id), SL.MemStats(0, 0, 0)).leaks else 0
    case ServerMinPagefault => if e == RpcEnd then ValueOr(SL.ServerPagefaults(lines, idx, id), (0, 0)).0 else 0
    case ServerMajPagefault => if e == RpcEnd then ValueOr(SL.ServerPagefaults(lines, idx, id), (0, 0)).1 else 0
  }

  /** Every counter of an accounted sample moves by exactly the line's effect on it. */
  lemma AccountCounts(c: Counter, s: Sample, line: string, n: nat, lines: seq<string>, idx: seq<SL.Entry>)
    requires |Split(line, ' ')| >= 3
    requires Account(s, Split(line, ' '), n, lines, idx).Success?
    ensures Read(c, Account(s, Split(line, ' '), n, lines, idx).value) == Read(c, s) + Effect(c, line, lines, idx)
  {
    if EventOf(Split(line, ' ')[2]) == RpcEnd {
      RpcEndEffect(c, s, line, n, lines, idx);
    } else {
      LocalEffect(c, s, line, n, lines, idx);
    }
  }

  lemma LocalEffect(c: Counter, s: Sample, line: string, n: nat, lines: seq<string>, idx: seq<SL.Entry>)
    requires |Split(line, ' ')| >= 3 && EventOf(Split(line, ' ')[2]) != RpcEnd
    requires Account(s, Split(line, ' '), n, lines, idx).Success?
    ensures Read(c, Account(s, Split(line, ' '), n, lines, idx).value) == Read(c, s) + Effect(c, line, lines, idx)
  {
    assert Kind(line) == Split(line, ' ')[2];
  }

  lemma RpcEndEffect(c: Counter, s: Sample, line: string, n: nat, lines: seq<string>, idx: seq<SL.Entry>)
    requires |Split(line, ' ')| >= 3 && EventOf(Split(line, ' ')[2]) == RpcEnd
    requires Account(s, Split(line, ' '), n, lines, idx).Success?
    ensures Read(c, Account(s, Split(line, ' '), n, lines, idx).value) == Read(c, s) + Effect(c, line, lines, idx)
  {
    assert Kind(line) == Split(line, ' ')[2];
    RpcEndCounts(s, Split(line, ' '), n, lines, idx);
  }

  /** On `RPC_end`, the server figures of the call are added and the network time grows by the rest of the call. */
  lemma RpcEndCounts(s: Sample, toks: seq<string>, n: nat, lines: seq<string>, idx: seq<SL.Entry>)
    requires |toks| >= 3
    requires AccountRpcEnd(s, toks, n, lines, idx).Success?
    ensures var r := AccountRpcEnd(s, toks, n, lines, idx).value;
      |toks| >= 4 &&
      r.serverTime == s.serverTime + SL.ServerTime(lines, idx, toks[3]).value &&
      r.serverMemoryUsage == s.serverMemoryUsage + SL.ServerMemory(lines, idx, toks[3]).value.usage &&
      r.serverMemLeaks == s.serverMemLeaks + SL.ServerMemory(lines, idx, toks[3]).value.leaks &&
      r.serverMinPagefault == s.serverMinPagefault + SL.ServerPagefaults(lines, idx, toks[3]).value.0 &&
      r.serverMajPagefault == s.serverMajPagefault + SL.ServerPagefaults(lines, idx, toks[3]).value.1 &&
      r.networkTime == s.networkTime + (Stol(toks[0]).value - s.rpcStartTime - SL.ServerTime(lines, idx, toks[3]).value) &&
      r.(serverTime := s.serverTime, networkTime := s.networkTime, serverMemoryUsage := s.serverMemoryUsage,
         serverMemLeaks := s.serverMemLeaks, serverMinPagefault := s.serverMinPagefault,
         serverMajPagefault := s.serverMajPagefault) == s
  {
  }

  /**
   * The other fields: the run number, features and start time never change;
   * `FUNC_END` sets the execution time to its timestamp minus the start
   * time, `RPC_start` records its timestamp, and `RPC_end` adds to the
   * network time its timestamp minus the call's start minus the server time.
   */
  lemma AccountKeeps(s: Sample, line: string, n: nat, lines: seq<string>, idx: seq<SL.Entry>)
    requires |Split(line, ' ')| >= 3
    requires Account(s, Split(line, ' '), n, lines, idx).Success?
    ensures var r := Account(s, Split(line, ' '), n, lines, idx).value;
      r.uid == s.uid && r.featureList == s.featureList && r.startTime == s.startTime &&
      r.serverWaitingTime == s.serverWaitingTime && r.serverLockHoldingTime == s.serverLockHoldingTime
    ensures var r := Account(s, Split(line, ' '), n, lines, idx).value;
      var toks := Split(line, ' ');
      r.execTime == (if EventOf(toks[2]) == FuncEnd then Stol(toks[0]).value - s.startTime else s.execTime) &&
      r.rpcStartTime == (if EventOf(toks[2]) == RpcStart then Stol(toks[0]).value else s.rpcStartTime)
    ensures var r := Account(s, Split(line, ' '), n, lines, idx).value;
      var toks := Split(line, ' ');
      r.networkTime ==
        if EventOf(toks[2]) == RpcEnd then
          s.networkTime + (Stol(toks[0]).value - s.rpcStartTime - SL.ServerTime(lines, idx, toks[3]).value)
        else s.networkTime
  {
    var toks := Split(line, ' ');
    if EventOf(toks[2]) == RpcEnd {
      RpcEndCounts(s, toks, n, lines, idx);
    }
  }

  /** A start line of run 1 of `name`, or of run `uid` itself, replaces the sample of run `uid`. */
  predicate Resets(line: string, name: string, uid: nat) {
    EventOf(Kind(line)) == FuncStart &&
    match Subject(line)
    case Some(p) => p.0 == name && (p.1 == uid || p.1 == 1)
    case None => false
  }

  /** What a line adds to counter `c` of run `uid` of `name`: its effect if it is about that run, else 0. */
  function LineEffect(c: Counter, line: string, name: string, uid: nat, lines: seq<string>, idx: seq<SL.Entry>): int {
    if Subject(line) == Some((name, uid)) then Effect(c, line, lines, idx) else 0
  }

  /** One line moves a counter of any run it does not reset by that line's effect on the run. */
  lemma StepCounts(c: Counter, funcs: Funcs, line: string, n: nat, lines: seq<string>, idx: seq<SL.Entry>,
                   name: string, uid: nat)
    requires Step(funcs, line, n, lines, idx).Success?
    requires SampleOf(funcs, name, uid).Some?
    requires !Resets(line, name, uid)
    ensures var after := SampleOf(Step(funcs, line, n, lines, idx).value, name, uid);
      after.Some? &&
      Read(c, after.value) == Read(c, SampleOf(funcs, name, uid).value) + LineEffect(c, line, name, uid, lines, idx)
  {
    var toks := Split(line, ' ');
    var uid' := SubjectUid(toks[1]).value;
    var name' := FuncName(toks[1]);
    if EventOf(toks[2]) == FuncStart {
      StartFrame(funcs, name', uid', toks, n, name, uid);
    } else if EventOf(toks[2]) != Unrecognised && name == name' && uid == uid' {
      AccountCounts(c, SampleOf(funcs, name, uid).value, line, n, lines, idx);
    }
  }

  /** A start line only touches the run it starts, and with run 1 the runs of its own function. */
  lemma StartFrame(funcs: Funcs, name': string, uid': nat, toks: seq<string>, n: nat, name: string, uid: nat)
    requires |toks| >= 3
    requires StartSample(funcs, name', uid', toks, n).Success?
    requires name != name' || (uid != uid' && uid' != 1)
    ensures SampleOf(StartSample(funcs, name', uid', toks, n).value, name, uid) == SampleOf(funcs, name, uid)
  {
  }

  /** A line about another run, other than a start line resetting this one, leaves this run's sample as it was. */
  lemma StepFrame(funcs: Funcs, line: string, n: nat, lines: seq<string>, idx: seq<SL.Entry>, name: string, uid: nat)
    requires Step(funcs, line, n, lines, idx).Success?
    requires Subject(line) != Some((name, uid))
    requires !Resets(line, name, uid)
    ensures SampleOf(Step(funcs, line, n, lines, idx).value, name, uid) == SampleOf(funcs, name, uid)
  {
    var toks := Split(line, ' ');
    if EventOf(toks[2]) == FuncStart {
      StartFrame(funcs, FuncName(toks[1]), SubjectUid(toks[1]).value, toks, n, name, uid);
    }
  }

  /**
   * A start line (re)creates its run: a fresh sample with the line's
   * features and timestamp. With run number 1 it first replaces the whole
   * function record; otherwise the function must already have one.
   */
  lemma StepStart(funcs: Funcs, line: string, n: nat, lines: seq<string>, idx: seq<SL.Entry>, name: string, uid: nat)
    requires EventOf(Kind(line)) == FuncStart && Subject(line) == Some((name, uid))
    ensures var toks := Split(line, ' ');
      Step(funcs, line, n, lines, idx).Success? <==> (uid == 1 || name in funcs) && Stol(toks[0]).Some?
    ensures var toks := Split(line, ' ');
      Step(funcs, line, n, lines, idx).Success? ==>
        |ParseFeatures(toks[3..]).value| == |toks| - 3 &&
        SampleOf(Step(funcs, line, n, lines, idx).value, name, uid) ==
          Some(MakeSample(uid).(featureList := ParseFeatures(toks[3..]).value, startTime := Stol(toks[0]).value))
    ensures Step(funcs, line, n, lines, idx).Success? && uid == 1 ==>
      Step(funcs, line, n, lines, idx).value[name].samples.Keys == {1}
  {
    ParseFeaturesAll(Split(line, ' ')[3..]);
  }

  /** The sum of a counter's line effects on run `uid` of `name` over the caller lines from `k` on. */
  function Tally(c: Counter, client: seq<string>, k: nat, name: string, uid: nat, lines: seq<string>, idx: seq<SL.Entry>): int
    decreases |client| - k
  {
    if k >= |client| then 0
    else LineEffect(c, client[k], name, uid, lines, idx) + Tally(c, client, k + 1, name, uid, lines, idx)
  }

  /**
   * Over a whole run of the caller log, every counter of a sample that no
   * line resets grows by the sum of the effects of the lines about it.
   */
  lemma {:induction false} RunTally(c: Counter, funcs: Funcs, client: seq<string>, k: nat, lines: seq<string>,
                                    idx: seq<SL.Entry>, name: string, uid: nat)
    requires Run(funcs, client, k, lines, idx).Success?
    requires SampleOf(funcs, name, uid).Some?
    requires forall j :: k <= j < |client| ==> !Resets(client[j], name, uid)
    ensures var after := SampleOf(Run(funcs, client, k, lines, idx).value, name, uid);
      after.Some? &&
      Read(c, after.value) == Read(c, SampleOf(funcs, name, uid).value) + Tally(c, client, k, name, uid, lines, idx)
    decreases |client| - k
  {
    if k < |client| {
      var funcs1 := Step(funcs, client[k], k, lines, idx).value;
      StepCounts(c, funcs, client[k], k, lines, idx, name, uid);
      RunTally(c, funcs1, client, k + 1, lines, idx, name, uid);
    }
  }

  /** The number of lines from `k` on that are about run `uid` of `name` and have the given kind. */
  function KindCount(client: seq<string>, k: nat, name: string, uid: nat, kind: Event): nat
    decreases |client| - k
  {
    if k >= |client| then 0
    else
      var here := if Subject(client[k]) == Some((name, uid)) && EventOf(Kind(client[k])) == kind then 1 else 0;
      here + KindCount(client, k + 1, name, uid, kind)
  }

  /** The leak counter's tally is the number of allocations minus the number of frees. */
  lemma {:induction false} LeakTally(client: seq<string>, k: nat, name: string, uid: nat, lines: seq<string>, idx: seq<SL.Entry>)
    ensures Tally(MemLeaks, client, k, name, uid, lines, idx) ==
      KindCount(client, k, name, uid, Malloc) - KindCount(client, k, name, uid, Free)
    decreases |client| - k
  {
    if k < |client| {
      LeakTally(client, k + 1, name, uid, lines, idx);
    }
  }

  /** The run fails unless the last caller line is a `FUNC_END`; in particular an empty log fails. */
  lemma TraceNeedsFinalEnd(client: seq<string>, serverFile: seq<string>)
    ensures Trace(client, serverFile).Success? ==> EndsWithFuncEnd(client)
    ensures client == [] ==> Trace(client, serverFile).Failure?
  {
  }

  /** With a well-formed responder log and a caller log that runs through, the final `FUNC_END` is all that is asked. */
  lemma TraceSucceeds(client: seq<string>, serverFile: seq<string>)
    requires SL.BuildIndex(serverFile).Success?
    requires Run(map[], client, 0, serverFile, SL.BuildIndex(serverFile).value).Success?
    requires EndsWithFuncEnd(client)
    ensures Trace(client, serverFile) == Run(map[], client, 0, serverFile, SL.BuildIndex(serverFile).value)
  {
  }

  // ---------------------------------------------------------------- what the logger writes

  /** The number of leading non-digits of a non-digit name followed by a digit. */
  lemma {:induction false} NonDigitPrefixOf(a: string, b: string)
    requires forall k :: 0 <= k < |a| ==> !IsDigit(a[k])
    requires |b| > 0 && IsDigit(b[0])
    ensures NonDigitPrefix(a + b) == |a|
    decreases |a|
  {
    if a != [] {
      assert (a + b)[1..] == a[1..] + b;
      NonDigitPrefixOf(a[1..], b);
    }
  }

  /**
   * A subject written as a digit-free function name followed by its run
   * number (`do_stuff1`) reads back as that name and that number.
   */
  lemma SubjectRoundTrip(name: string, run: nat)
    requires |name| > 0 && forall k :: 0 <= k < |name| ==> !IsDigit(name[k])
    requires run <= Int32Max
    ensures FuncName(name + NatToString(run)) == name
    ensures SubjectUid(name + NatToString(run)) == Some(run)
  {
    NonDigitPrefixOf(name, NatToString(run));
    SubjectName(name, NatToString(run));
    SubjectNumber(name, run);
  }

  lemma SubjectName(name: string, ds: string)
    requires |name| > 0 && !IsDigit(name[0])
    requires NonDigitPrefix(name + ds) == |name|
    ensures FuncName(name + ds) == name
  {
    var t := name + ds;
    assert t[0] == name[0] && DigitPrefix(t) == 0;
    assert t[0..] == t && t[..|name|] == name;
  }

  lemma SubjectNumber(name: string, run: nat)
    requires run <= Int32Max
    requires NonDigitPrefix(name + NatToString(run)) == |name|
    ensures SubjectUid(name + NatToString(run)) == Some(run)
  {
    var ds := NatToString(run);
    UidTextOf(name, ds);
    assert IntToString(run) == ds;
    StoiIntToString(run);
    assert Stoi(UidText(name + ds)) == Some(run);
    SmallUid(run);
  }

  lemma SmallUid(v: int)
    requires 0 <= v <= Int32Max
    ensures v % 0x1_0000_0000 == v
  {
  }

  lemma UidTextOf(name: string, ds: string)
    requires |ds| > 0 && forall k :: 0 <= k < |ds| ==> IsDigit(ds[k])
    requires NonDigitPrefix(name + ds) == |name|
    ensures UidText(name + ds) == ds
  {
    var t := name + ds;
    assert t[|name|..] == ds;
    DigitPrefixAll(ds);
    assert ds[..|ds|] == ds;
  }

  /**
   * The logger prints a feature as `name=value` (no type): read as a
   * `name=type&value` token, the value's digits land in the type and the
   * whole token becomes the value.
   */
  lemma PrintedFeatureMisread(f: F.Feature)
    requires '=' !in f.name && '&' !in f.name
    requires |F.Print(f)| < Npos
    ensures ParseFeatureToken(F.Print(f)) == Some(ParsedFeature(f.name, F.RenderValue(f.value), F.Print(f)))
  {
    IntToStringChars(F.Number(f.value));
    FeatureTokenWithoutAmpersand(f.name, F.RenderValue(f.value));
  }

  // ---------------------------------------------------------------- the imperative tool

  /** The state `generate_perf_trace` keeps across caller lines: `func_list` and the last token vector. */
  class Correlator {
    var funcs: Funcs
    /** `line_vect`: the tokens of the last line read. */
    var lineVect: seq<string>

    constructor ()
      ensures funcs == map[] && lineVect == []
    {
      funcs, lineVect := map[], [];
    }

    /** One iteration of the loop over the caller log, reading the responder figures from `server`. */
    method ProcessLine(line: string, n: nat, server: SL.ServerLog) returns (r: Outcome<Error>)
      modifies this
      ensures lineVect == Split(line, ' ')
      ensures r.Pass? <==> Step(old(funcs), line, n, server.lines, server.indices).Success?
      ensures r.Pass? ==> funcs == Step(old(funcs), line, n, server.lines, server.indices).value
      ensures r.Fail? ==> Step(old(funcs), line, n, server.lines, server.indices) == Failure(r.error)
    {
      lineVect := Tokenize(line);
      if |lineVect| < 2 {
        return Fail(MalformedLine(n));
      }
      var uid := SubjectUid(lineVect[1]);
      if uid.None? {
        return Fail(MalformedLine(n));
      }
      var fName := FuncName(lineVect[1]);
      if |lineVect| < 3 {
        return Fail(MalformedLine(n));
      }
      var event := EventOf(lineVect[2]);
      if event == FuncStart {
        r := StartRun(fName, uid.value, n);
      } else if event != Unrecognised {
        if fName !in funcs {
          return Fail(NoRecord(n, fName));
        }
        if uid.value !in funcs[fName].samples {
          return Fail(NoSample(n, uid.value));
        }
        var updated := AccountLine(funcs[fName].samples[uid.value], lineVect, n, server);
        if updated.Failure? {
          return Fail(updated.error);
        }
        funcs := funcs[fName := funcs[fName].(samples := funcs[fName].samples[uid.value := updated.value])];
        r := Pass;
      } else {
        r := Pass;
      }
    }

    /** The `FUNC_START` branch: parse the features, (re)create the record for run 1, store a fresh sample. */
    method StartRun(fName: string, uid: nat, n: nat) returns (r: Outcome<Error>)
      requires |lineVect| >= 3
      modifies this
      ensures lineVect == old(lineVect)
      ensures r.Pass? <==> StartSample(old(funcs), fName, uid, lineVect, n).Success?
      ensures r.Pass? ==> funcs == StartSample(old(funcs), fName, uid, lineVect, n).value
      ensures r.Fail? ==> StartSample(old(funcs), fName, uid, lineVect, n) == Failure(r.error)
    {
      var featureList := ParseFeatureList(lineVect);
      if uid == 1 {
        funcs := funcs[fName := MakeFuncRecord(fName)];
      }
      if fName !in funcs {
        return Fail(NoRecord(n, fName));
      }
      ghost var before := funcs;
      var sample := MakeSample(uid).(featureList := featureList);
      funcs := funcs[fName := funcs[fName].(samples := funcs[fName].samples[uid := sample])];
      var start := Stol(lineVect[0]);
      if start.None? {
        return Fail(MalformedLine(n));
      }
      var started := sample.(startTime := start.value);
      funcs := funcs[fName := funcs[fName].(samples := funcs[fName].samples[uid := started])];
      assert funcs[fName].samples == before[fName].samples[uid := started];
      assert funcs == Put(before, fName, uid, started);
      r := Pass;
    }
  }

  /** The loop over tokens 3 onwards of a start line, one feature per token. */
  method ParseFeatureList(toks: seq<string>) returns (featureList: seq<ParsedFeature>)
    requires |toks| >= 3
    ensures ParseFeatures(toks[3..]) == Some(featureList)
  {
    featureList := [];
    for i := 3 to |toks|
      invariant ParseFeatures(toks[3..i]) == Some(featureList)
    {
      assert toks[3..i + 1][..i - 3] == toks[3..i];
      ParseFeatureTokenTotal(toks[i]);
      featureList := featureList + [ParseFeatureToken(toks[i]).value];
    }
    assert toks[3..|toks|] == toks[3..];
  }

  /** The branches for the other event kinds, on the sample they update. */
  method AccountLine(s: Sample, toks: seq<string>, n: nat, server: SL.ServerLog) returns (r: Result<Sample, Error>)
    requires |toks| >= 3
    ensures r == Account(s, toks, n, server.lines, server.indices)
  {
    match EventOf(toks[2])
    case Malloc =>
      var size :- Arg(toks, 3, n);
      r := Success(s.(memoryUsage := s.memoryUsage + size, memLeaks := s.memLeaks + 1));
    case Free =>
      r := Success(s.(memLeaks := s.memLeaks - 1));
    case RpcStart =>
      var t :- Time(toks, n);
      r := Success(s.(rpcStartTime := t));
    case RpcEnd =>
      r := RpcEndLine(s, toks, n, server);
    case Pagefault =>
      var minor :- Arg(toks, 3, n);
      var major :- Arg(toks, 4, n);
      r := Success(s.(minPagefault := s.minPagefault + minor, majPagefault := s.majPagefault + major));
    case MutexUnlock =>
      var h :- Arg(toks, 3, n);
      r := Success(s.(lockHoldingTime := s.lockHoldingTime + h));
    case FuncEnd =>
      var t :- Time(toks, n);
      r := Success(s.(execTime := t - s.startTime));
    case MutexLock | CondWaitReturned | CondTimedwaitReturned =>
      var w :- Arg(toks, 3, n);
      r := Success(s.(waitingTime := s.waitingTime + w));
    case FuncStart | Unrecognised =>
      r := Success(s);
  }

  /** The `RPC_end` branch: `calc_server_time`, `calc_server_memory` and `calc_server_pagefaults` for token 3. */
  method RpcEndLine(s: Sample, toks: seq<string>, n: nat, server: SL.ServerLog) returns (r: Result<Sample, Error>)
    requires |toks| >= 3
    ensures r == AccountRpcEnd(s, toks, n, server.lines, server.indices)
  {
    if |toks| < 4 {
      return Failure(MalformedLine(n));
    }
    var serverTime := server.CalcServerTime(toks[3]);
    var st :- Server(serverTime, n);
    var now :- Time(toks, n);
    var mem := server.CalcServerMemory(toks[3]);
    var usage :- Server(mem, n);
    var faults := server.CalcServerPagefaults(toks[3]);
    var pf :- Server(faults, n);
    r := Success(AddServerFigures(s, st, now, usage, pf));
  }

  /**
   * `generate_perf_trace` on the lines of the two logs: preprocess the
   * responder log, process every caller line, then check the last one.
   */
  method GeneratePerfTrace(client: seq<string>, serverFile: seq<string>) returns (r: Result<Funcs, Error>)
    ensures r == Trace(client, serverFile)
  {
    var server := new SL.ServerLog();
    var pre := server.Preprocess(serverFile);
    if pre.Fail? {
      return Failure(BadServerLog(pre.error));
    }
    assert server.lines == serverFile && server.indices == SL.BuildIndex(serverFile).value;
    r := CorrelateLines(client, server);
  }

  /** The loop over the caller log and the check after it, against a preprocessed responder log. */
  method CorrelateLines(client: seq<string>, server: SL.ServerLog) returns (r: Result<Funcs, Error>)
    ensures r == Correlate(client, server.lines, server.indices)
  {
    var corr := new Correlator();
    var n := 0;
    while n < |client|
      invariant 0 <= n <= |client|
      invariant Run(corr.funcs, client, n, server.lines, server.indices) == Run(map[], client, 0, server.lines, server.indices)
      invariant n > 0 ==> corr.lineVect == Split(client[n - 1], ' ')
      invariant n == 0 ==> corr.lineVect == []
    {
      var res := corr.ProcessLine(client[n], n, server);
      if res.Fail? {
        return Failure(res.error);
      }
      n := n + 1;
    }
    if |corr.lineVect| >= 3 && corr.lineVect[2] == "FUNC_END" {
      r := Success(corr.funcs);
    } else {
      r := Failure(NoFinalEnd);
    }
  }
}
