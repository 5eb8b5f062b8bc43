/**
 * The event logger of custom_instr.cc: every call appends one line
 * `<timestamp> <message>` to the stream `log_p`, which `start_instrum`
 * opens on `<side>_log.txt` and `finish_instrum` closes. The clock reading
 * is a parameter; `malloc`'s answer is a parameter too (0 is a failed
 * allocation), and `exit` is a `Fatal` result.
 */
module Logger {
  import opened Wrappers
  import opened Text
  import F = Feature

  /** The conditions on which the logger calls `exit(EXIT_FAILURE)`. */
  datatype Fatal = CannotAllocate | CannotFree | CannotOpen(side: string)

  /** The text `write_log` writes for one event. */
  function LogLine(timestamp: int, msg: string): string {
    IntToString(timestamp) + " " + msg
  }

  /** The feature part of a start message, as start_instrum's loop builds it: `" " + print()` per feature. */
  function FeatureText(fs: seq<F.Feature>): string {
    if fs == [] then "" else FeatureText(fs[..|fs| - 1]) + " " + F.Print(fs[|fs| - 1])
  }

  function StartMessage(funcName: string, fs: seq<F.Feature>): string {
    funcName + " FUNC_START" + FeatureText(fs)
  }

  function MallocMessage(funcName: string, size: nat): string {
    funcName + " malloc " + NatToString(size)
  }

  function FreeMessage(funcName: string): string {
    funcName + " free"
  }

  function EndMessage(funcName: string): string {
    funcName + " FUNC_END"
  }

  function LogPath(side: string): string {
    side + "_log.txt"
  }

  /** The printed features, one per feature, in order. */
  function Prints(fs: seq<F.Feature>): (ps: seq<string>)
    ensures |ps| == |fs|
  {
    if fs == [] then [] else Prints(fs[..|fs| - 1]) + [F.Print(fs[|fs| - 1])]
  }

  lemma {:induction false} PrintsAt(fs: seq<F.Feature>, k: nat)
    requires k < |fs|
    ensures Prints(fs)[k] == F.Print(fs[k])
    decreases |fs|
  {
    if k < |fs| - 1 {
      PrintsAt(fs[..|fs| - 1], k);
    }
  }

  predicate NoSpaces(ws: seq<string>) {
    forall k :: 0 <= k < |ws| ==> ' ' !in ws[k]
  }

  /** A logged line splits on spaces into the timestamp followed by the words of the message. */
  lemma LogLineTokens(timestamp: int, words: seq<string>)
    requires |words| >= 1 && NoSpaces(words)
    ensures Split(LogLine(timestamp, Join(words, ' ')), ' ') == [IntToString(timestamp)] + words
  {
    IntToStringChars(timestamp);
    var all := [IntToString(timestamp)] + words;
    assert all[1..] == words;
    assert Join(all, ' ') == LogLine(timestamp, Join(words, ' '));
    JoinSplit(all, ' ');
  }

  lemma {:induction false} StartWords(funcName: string, fs: seq<F.Feature>)
    ensures StartMessage(funcName, fs) == Join([funcName, "FUNC_START"] + Prints(fs), ' ')
    decreases |fs|
  {
    if fs == [] {
      assert [funcName, "FUNC_START"] + Prints(fs) == [funcName, "FUNC_START"];
    } else {
      var init := fs[..|fs| - 1];
      var p := F.Print(fs[|fs| - 1]);
      StartWords(funcName, init);
      var ws := [funcName, "FUNC_START"] + Prints(init);
      assert [funcName, "FUNC_START"] + Prints(fs) == ws + [p];
      JoinSnoc(ws, p, ' ');
      assert StartMessage(funcName, fs) == StartMessage(funcName, init) + [' '] + p;
    }
  }

  /**
   * The start line has the documented shape `time function FUNC_START feature...`:
   * its tokens are the timestamp, the function name, FUNC_START and the
   * printed features in order.
   */
  lemma StartLineTokens(timestamp: int, funcName: string, fs: seq<F.Feature>)
    requires ' ' !in funcName
    requires forall k :: 0 <= k < |fs| ==> ' ' !in fs[k].name
    ensures Split(LogLine(timestamp, StartMessage(funcName, fs)), ' ') ==
            [IntToString(timestamp), funcName, "FUNC_START"] + Prints(fs)
  {
    PrintsHaveNoSpaces(fs);
    StartLineWords(timestamp, funcName, fs);
  }

  lemma StartLineWords(timestamp: int, funcName: string, fs: seq<F.Feature>)
    requires ' ' !in funcName && NoSpaces(Prints(fs))
    ensures Split(LogLine(timestamp, StartMessage(funcName, fs)), ' ') ==
            [IntToString(timestamp), funcName, "FUNC_START"] + Prints(fs)
  {
    StartWords(funcName, fs);
    WordsLineTokens(timestamp, [funcName, "FUNC_START"], Prints(fs), StartMessage(funcName, fs));
  }

  lemma WordsLineTokens(timestamp: int, fixed: seq<string>, ps: seq<string>, msg: string)
    requires |fixed| >= 1 && NoSpaces(fixed) && NoSpaces(ps)
    requires msg == Join(fixed + ps, ' ')
    ensures Split(LogLine(timestamp, msg), ' ') == [IntToString(timestamp)] + fixed + ps
  {
    NoSpacesAppend(fixed, ps);
    LogLineTokens(timestamp, fixed + ps);
    AppendAssoc([IntToString(timestamp)], fixed, ps);
  }

  lemma NoSpacesAppend(a: seq<string>, b: seq<string>)
    requires NoSpaces(a) && NoSpaces(b)
    ensures NoSpaces(a + b)
  {
    forall k | 0 <= k < |a + b| ensures ' ' !in (a + b)[k] {
      if k >= |a| { assert (a + b)[k] == b[k - |a|]; }
    }
  }

  lemma PrintsHaveNoSpaces(fs: seq<F.Feature>)
    requires forall k :: 0 <= k < |fs| ==> ' ' !in fs[k].name
    ensures NoSpaces(Prints(fs))
  {
    forall k | 0 <= k < |fs| ensures ' ' !in Prints(fs)[k] {
      PrintsAt(fs, k);
      F.PrintAvoids(fs[k], ' ');
    }
  }

  /** The allocation line has the documented shape `time function malloc size`. */
  lemma MallocLineTokens(timestamp: int, funcName: string, size: nat)
    requires ' ' !in funcName
    ensures Split(LogLine(timestamp, MallocMessage(funcName, size)), ' ') ==
            [IntToString(timestamp), funcName, "malloc", NatToString(size)]
  {
    IntToStringChars(size);
    var ws := [funcName, "malloc", NatToString(size)];
    assert ws[1..][1..] == [NatToString(size)];
    assert Join(ws[1..], ' ') == "malloc" + [' '] + NatToString(size);
    assert Join(ws, ' ') == funcName + [' '] + ("malloc" + [' '] + NatToString(size));
    assert Join(ws, ' ') == MallocMessage(funcName, size);
    LogLineTokens(timestamp, [funcName, "malloc", NatToString(size)]);
  }

  /** The free line has the shape `time function free`. */
  lemma FreeLineTokens(timestamp: int, funcName: string)
    requires ' ' !in funcName
    ensures Split(LogLine(timestamp, FreeMessage(funcName)), ' ') == [IntToString(timestamp), funcName, "free"]
  {
    var ws := [funcName, "free"];
    assert ws[1..] == ["free"];
    assert Join(ws, ' ') == FreeMessage(funcName);
    LogLineTokens(timestamp, ws);
  }

  /** The end line has the shape `time function FUNC_END`. */
  lemma EndLineTokens(timestamp: int, funcName: string)
    requires ' ' !in funcName
    ensures Split(LogLine(timestamp, EndMessage(funcName)), ' ') == [IntToString(timestamp), funcName, "FUNC_END"]
  {
    var ws := [funcName, "FUNC_END"];
    assert ws[1..] == ["FUNC_END"];
    assert Join(ws, ' ') == EndMessage(funcName);
    LogLineTokens(timestamp, ws);
  }

  /** The stream `log_p` and the log files it writes. */
  class Logger {
    /** The log files: path to lines. */
    var files: map<string, seq<string>>
    /** The path `log_p` has open, if any. */
    var current: Option<string>
    /** The stream's fail bit: set by a failed open or close, cleared by a successful open. */
    var failed: bool

    ghost predicate Valid()
      reads this
    {
      current.Some? ==> current.value in files
    }

    /** Writes go through only while a file is open and the fail bit is clear. */
    predicate Writable()
      reads this
    {
      current.Some? && current.value in files && !failed
    }

    /** The files after one more line reaches the stream. */
    function Appended(line: string): map<string, seq<string>>
      reads this
    {
      if Writable() then files[current.value := files[current.value] + [line]] else files
    }

    constructor (disk: map<string, seq<string>>)
      ensures Valid() && files == disk && current == None && !failed
    {
      files, current, failed := disk, None, false;
    }

    /** `write_log`: append `<timestamp> <msg>` after every earlier line of the open file. */
    method WriteLog(timestamp: int, msg: string)
      requires Valid()
      modifies this
      ensures Valid() && current == old(current) && failed == old(failed)
      ensures files == old(Appended(LogLine(timestamp, msg)))
    {
      if current.Some? && current.value in files && !failed {
        var path := current.value;
        files := files[path := files[path] + [LogLine(timestamp, msg)]];
      }
    }

    /** `custom_malloc`: `ptr` is what `malloc(size)` returned. */
    method CustomMalloc(timestamp: int, funcName: string, size: nat, ptr: nat) returns (r: Result<nat, Fatal>)
      requires Valid()
      modifies this
      ensures Valid() && current == old(current) && failed == old(failed)
      ensures ptr == 0 ==> r == Failure(CannotAllocate) && files == old(files)
      ensures ptr != 0 ==> r == Success(ptr) && files == old(Appended(LogLine(timestamp, MallocMessage(funcName, size))))
    {
      if ptr == 0 {
        return Failure(CannotAllocate);
      }
      WriteLog(timestamp, funcName + " malloc " + NatToString(size));
      r := Success(ptr);
    }

    /** `custom_free`: a null pointer is fatal; otherwise the free is logged before it happens. */
    method CustomFree(timestamp: int, funcName: string, ptr: nat) returns (r: Outcome<Fatal>)
      requires Valid()
      modifies this
      ensures Valid() && current == old(current) && failed == old(failed)
      ensures ptr == 0 ==> r == Fail(CannotFree) && files == old(files)
      ensures ptr != 0 ==> r == Pass && files == old(Appended(LogLine(timestamp, FreeMessage(funcName))))
    {
      if ptr == 0 {
        return Fail(CannotFree);
      }
      WriteLog(timestamp, funcName + " free");
      r := Pass;
    }

    /**
     * `start_instrum`: open `<side>_log.txt`, appending for the server side
     * and truncating otherwise, and log the start event with its features.
     * `canOpen` says whether the file system lets the file be opened. Opening
     * a stream that is already open fails without closing it: the fail bit is
     * set and the start line is not written.
     */
    method StartInstrum(timestamp: int, funcName: string, side: string, features: seq<F.Feature>, canOpen: bool)
      returns (r: Outcome<Fatal>)
      requires Valid()
      modifies this
      ensures Valid()
      ensures old(current).Some? ==> r == Pass && current == old(current) && failed && files == old(files)
      ensures old(current).None? && !canOpen ==> r == Fail(CannotOpen(side)) && current == None && files == old(files)
      ensures old(current).None? && canOpen ==>
        var path := LogPath(side);
        var kept := if side == "server" && path in old(files) then old(files)[path] else [];
        r == Pass && current == Some(path) && !failed &&
        files == old(files)[path := kept + [LogLine(timestamp, StartMessage(funcName, features))]]
    {
      var path := side + "_log.txt";
      if current.Some? {
        failed := true;
      } else if !canOpen {
        failed := true;
        return Fail(CannotOpen(side));
      } else {
        var kept := if side == "server" && path in files then files[path] else [];
        files := files[path := kept];
        current, failed := Some(path), false;
      }
      var msg := funcName + " FUNC_START";
      for i := 0 to |features|
        invariant msg == StartMessage(funcName, features[..i])
      {
        assert features[..i + 1][..i] == features[..i];
        msg := msg + " " + F.Print(features[i]);
      }
      assert features[..|features|] == features;
      WriteLog(timestamp, msg);
      r := Pass;
    }

    /** `finish_instrum`: log the end event, then close the stream (closing a closed stream sets the fail bit). */
    method FinishInstrum(timestamp: int, funcName: string)
      requires Valid()
      modifies this
      ensures Valid() && current == None
      ensures failed == (old(failed) || old(current).None?)
      ensures files == old(Appended(LogLine(timestamp, EndMessage(funcName))))
    {
      WriteLog(timestamp, funcName + " FUNC_END");
      if current.Some? {
        current := None;
      } else {
        failed := true;
      }
    }
  }
}
