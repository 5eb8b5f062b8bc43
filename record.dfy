/**
 * The summary record of trace_merge.h (`custom_func`): its zeroed
 * counters, `make_custom_func`, and the human-readable report `print`.
 */
module Record {
  import opened Text
  import F = Feature

  datatype CustomFunc = CustomFunc(
    name: string,
    execTime: int,
    networkTime: int,
    serverTime: int,
    memoryUsage: int,
    serverMemory: int,
    memLeaks: int,
    serverMemoryLeaks: int,
    featureList: seq<F.Feature>)

  /** `make_custom_func(n, f_l)`: every counter at its default 0, with the given name and features. */
  function MakeCustomFunc(n: string, fl: seq<F.Feature>): (c: CustomFunc)
    ensures c.name == n && c.featureList == fl
    ensures c.execTime == 0 && c.networkTime == 0 && c.serverTime == 0
    ensures c.memoryUsage == 0 && c.serverMemory == 0 && c.memLeaks == 0 && c.serverMemoryLeaks == 0
  {
    CustomFunc(n, 0, 0, 0, 0, 0, 0, 0, fl)
  }

  /** The opening words of every report. */
  function Opening(c: CustomFunc): string {
    c.name + " took " + IntToString(c.execTime) + " ms, of which approx. "
  }

  function TimeLine(c: CustomFunc): string {
    Opening(c) + IntToString(c.networkTime) + " ms in network and approx. " +
    IntToString(c.serverTime) + " ms in server."
  }

  function MemoryLine(c: CustomFunc): string {
    "Used " + IntToString(c.memoryUsage) + " bytes of memory client-side and " +
    IntToString(c.serverMemory) + " bytes of memory server-side."
  }

  function LeakLine(side: string, n: int): string {
    "Possible " + side + " memory leak detected! " + IntToString(n) + " malloc call(s) not freed."
  }

  /** The printed features, each followed by a space, in list order (the loop over `feature_list`). */
  function FeatureText(fs: seq<F.Feature>): string {
    if fs == [] then "" else FeatureText(fs[..|fs| - 1]) + F.Print(fs[|fs| - 1]) + " "
  }

  function FeatureLine(fs: seq<F.Feature>): string {
    "Found " + IntToString(|fs|) + " feature(s): " + FeatureText(fs)
  }

  function ClientLeakPart(c: CustomFunc): string {
    if c.memLeaks > 0 then "\n" + LeakLine("client", c.memLeaks) else ""
  }

  function ServerLeakPart(c: CustomFunc): string {
    if c.serverMemoryLeaks > 0 then "\n" + LeakLine("server", c.serverMemoryLeaks) else ""
  }

  function FeaturePart(c: CustomFunc): string {
    if |c.featureList| > 0 then "\n" + FeatureLine(c.featureList) else ""
  }

  /** `custom_func::print()`: the message grows by the time and memory lines, then each optional line in turn. */
  function Print(c: CustomFunc): string {
    TimeLine(c) + "\n" + MemoryLine(c) + ClientLeakPart(c) + ServerLeakPart(c) + FeaturePart(c)
  }

  /** The lines of the report, in order. */
  function ReportLines(c: CustomFunc): seq<string> {
    [TimeLine(c), MemoryLine(c)]
    + (if c.memLeaks > 0 then [LeakLine("client", c.memLeaks)] else [])
    + (if c.serverMemoryLeaks > 0 then [LeakLine("server", c.serverMemoryLeaks)] else [])
    + (if |c.featureList| > 0 then [FeatureLine(c.featureList)] else [])
  }

  lemma PrefixOfConcat(p: string, a: string, b: string)
    requires p <= a
    ensures p <= a + b
  {
    assert (a + b)[..|a|] == a;
  }

  /** Every report begins with the name, the execution time and "ms, of which approx.". */
  lemma PrintOpening(c: CustomFunc)
    ensures Opening(c) <= Print(c)
  {
    var o := Opening(c);
    var s1 := o + IntToString(c.networkTime);
    PrefixOfConcat(o, o, IntToString(c.networkTime));
    var s2 := s1 + " ms in network and approx. ";
    PrefixOfConcat(o, s1, " ms in network and approx. ");
    var s3 := s2 + IntToString(c.serverTime);
    PrefixOfConcat(o, s2, IntToString(c.serverTime));
    var t := s3 + " ms in server.";
    PrefixOfConcat(o, s3, " ms in server.");
    assert t == TimeLine(c);
    var u := t + "\n";
    PrefixOfConcat(o, t, "\n");
    var v := u + MemoryLine(c);
    PrefixOfConcat(o, u, MemoryLine(c));
    var w := v + ClientLeakPart(c);
    PrefixOfConcat(o, v, ClientLeakPart(c));
    var x := w + ServerLeakPart(c);
    PrefixOfConcat(o, w, ServerLeakPart(c));
    PrefixOfConcat(o, x, FeaturePart(c));
    assert x + FeaturePart(c) == Print(c);
  }

  predicate NoNewline(c: CustomFunc) {
    '\n' !in c.name && forall k :: 0 <= k < |c.featureList| ==> '\n' !in c.featureList[k].name
  }

  lemma {:induction false} FeatureTextNoNewline(fs: seq<F.Feature>)
    requires forall k :: 0 <= k < |fs| ==> '\n' !in fs[k].name
    ensures '\n' !in FeatureText(fs)
    decreases |fs|
  {
    if fs != [] {
      FeatureTextNoNewline(fs[..|fs| - 1]);
      F.PrintAvoids(fs[|fs| - 1], '\n');
    }
  }

  lemma TimeLineNoNewline(c: CustomFunc)
    requires '\n' !in c.name
    ensures '\n' !in TimeLine(c)
  {
    IntToStringChars(c.execTime);
    IntToStringChars(c.networkTime);
    IntToStringChars(c.serverTime);
  }

  lemma MemoryLineNoNewline(c: CustomFunc)
    ensures '\n' !in MemoryLine(c)
  {
    IntToStringChars(c.memoryUsage);
    IntToStringChars(c.serverMemory);
  }

  lemma LeakLineNoNewline(side: string, n: int)
    requires '\n' !in side
    ensures '\n' !in LeakLine(side, n)
  {
    IntToStringChars(n);
  }

  lemma LinesHaveNoNewline(c: CustomFunc)
    requires NoNewline(c)
    ensures forall k :: 0 <= k < |ReportLines(c)| ==> '\n' !in ReportLines(c)[k]
  {
    TimeLineNoNewline(c);
    MemoryLineNoNewline(c);
    LeakLineNoNewline("client", c.memLeaks);
    LeakLineNoNewline("server", c.serverMemoryLeaks);
    IntToStringChars(|c.featureList|);
    FeatureTextNoNewline(c.featureList);
  }

  /**
   * Split into lines, the report is the time line, the memory line, then a
   * client-leak warning exactly when `mem_leaks > 0`, a server-leak warning
   * exactly when `server_memory_leaks > 0`, and the feature line exactly
   * when there are features.
   */
  /** Joining one more optional line: `part` is empty or a newline and that line. */
  lemma JoinOptional(ls: seq<string>, present: bool, line: string, part: string)
    requires |ls| >= 1
    requires part == if present then "\n" + line else ""
    ensures Join(ls + (if present then [line] else []), '\n') == Join(ls, '\n') + part
  {
    if present {
      JoinSnoc(ls, line, '\n');
    } else {
      assert ls + [] == ls;
    }
  }

  lemma PrintLines(c: CustomFunc)
    requires NoNewline(c)
    ensures Split(Print(c), '\n') == ReportLines(c)
  {
    PrintJoinsLines(c);
    LinesHaveNoNewline(c);
    JoinSplit(ReportLines(c), '\n');
  }

  /** The report is its lines joined with newlines. */
  lemma PrintJoinsLines(c: CustomFunc)
    ensures Join(ReportLines(c), '\n') == Print(c)
  {
    var t, m := TimeLine(c), MemoryLine(c);
    assert Join([t, m], '\n') == t + "\n" + m by {
      assert [t, m][1..] == [m];
    }
    var a := [t, m] + (if c.memLeaks > 0 then [LeakLine("client", c.memLeaks)] else []);
    JoinOptional([t, m], c.memLeaks > 0, LeakLine("client", c.memLeaks), ClientLeakPart(c));
    var b := a + (if c.serverMemoryLeaks > 0 then [LeakLine("server", c.serverMemoryLeaks)] else []);
    JoinOptional(a, c.serverMemoryLeaks > 0, LeakLine("server", c.serverMemoryLeaks), ServerLeakPart(c));
    JoinOptional(b, |c.featureList| > 0, FeatureLine(c.featureList), FeaturePart(c));
  }

  /** The same text, built from the front: the first feature's print, a space, and the rest. */
  function FeatureTextFromFront(fs: seq<F.Feature>): string {
    if fs == [] then "" else F.Print(fs[0]) + " " + FeatureTextFromFront(fs[1..])
  }

  lemma {:induction false} FeatureTextSplit(fs: seq<F.Feature>, k: nat)
    requires k <= |fs|
    ensures FeatureText(fs[..k]) + FeatureTextFromFront(fs[k..]) == FeatureText(fs)
    decreases |fs| - k
  {
    if k < |fs| {
      assert fs[..k + 1][..k] == fs[..k];
      assert fs[k..][1..] == fs[k + 1..];
      FeatureTextSplit(fs, k + 1);
    } else {
      assert fs[..k] == fs;
    }
  }

  /** The feature line lists every feature's print followed by a space, first feature first. */
  lemma FeatureTextInOrder(fs: seq<F.Feature>)
    ensures FeatureText(fs) == FeatureTextFromFront(fs)
  {
    FeatureTextSplit(fs, 0);
    assert fs[..0] == [] && fs[0..] == fs;
  }
}
