// The BLE terminal: every line the sensor's terminal characteristic
// sends is appended to a buffer that keeps the newest 1000 lines and is
// shown newest first.
module Terminal {
  import opened Common

  /** The buffer keeps at most this many lines. */
  const LineCap: nat := 1000

  /** `slice(-n)`: the last n elements, or all of them when fewer. */
  function TakeLast<T>(s: seq<T>, n: nat): (r: seq<T>)
    ensures |r| == if |s| < n then |s| else n
    ensures s[..|s| - |r|] + r == s
  {
    if |s| < n then s else s[|s| - n..]
  }

  /** One received line: appended at the end, then only the last LineCap
      lines are kept, so the oldest line falls off the front. */
  function AppendLine<T>(logs: seq<T>, line: T): (l: seq<T>)
    ensures 0 < |l| <= LineCap
    ensures |l| == if |logs| < LineCap then |logs| + 1 else LineCap
    ensures l[|l| - 1] == line
    ensures l[..|l| - 1] == logs[|logs| - (|l| - 1)..]
  {
    TakeLast(logs + [line], LineCap)
  }

  /** The lines `lines`, received in order, appended one after the other. */
  function AppendAll<T>(logs: seq<T>, lines: seq<T>): (l: seq<T>)
    ensures |l| <= |logs| + |lines|
  {
    if lines == [] then logs else AppendLine(AppendAll(logs, lines[..|lines| - 1]), lines[|lines| - 1])
  }

  lemma TakeLastSnocTakeLast<T>(s: seq<T>, x: T, n: nat)
    requires 0 < n
    ensures TakeLast(TakeLast(s, n) + [x], n) == TakeLast(s + [x], n)
  {
    if |s| >= n {
      var t := s[|s| - n..];
      assert TakeLast(s, n) == t;
      assert TakeLast(t + [x], n) == (t + [x])[1..] == s[|s| - n + 1..] + [x];
      assert TakeLast(s + [x], n) == (s + [x])[|s| + 1 - n..] == s[|s| + 1 - n..] + [x];
    }
  }

  lemma ConcatSnocOfLast<T>(logs: seq<T>, s: seq<T>)
    requires s != []
    ensures (logs + s[..|s| - 1]) + [s[|s| - 1]] == logs + s
  {
    assert s == s[..|s| - 1] + [s[|s| - 1]];
  }

  /** After a run of lines the buffer holds the last LineCap lines of the
      previous buffer followed by the run, in arrival order. */
  lemma {:induction false} AppendAllKeepsNewest<T>(logs: seq<T>, lines: seq<T>)
    requires |logs| <= LineCap
    ensures AppendAll(logs, lines) == TakeLast(logs + lines, LineCap)
    decreases |lines|
  {
    if lines == [] {
      assert logs + lines == logs;
    } else {
      var front, x := lines[..|lines| - 1], lines[|lines| - 1];
      AppendAllKeepsNewest(logs, front);
      TakeLastSnocTakeLast(logs + front, x, LineCap);
      ConcatSnocOfLast(logs, lines);
    }
  }

  class TerminalPlot {
    var logs: seq<string>
    var cancelled: bool
    var subscribePending: bool
    var subscription: Option<nat>
    // Monitors whose remove() was called, and a monitor that resolved after
    // cleanup and so is never removed.
    var removed: seq<nat>
    var leaked: seq<nat>

    ghost predicate Valid()
      reads this
    {
      && |logs| <= LineCap
      && (subscribePending ==> subscription.None?)
    }

    /** Mount: the effect starts the subscription. */
    constructor ()
      ensures Valid()
      ensures logs == [] && !cancelled && subscribePending && subscription.None?
      ensures removed == [] && leaked == []
    {
      logs, cancelled, subscribePending, subscription := [], false, true, None;
      removed, leaked := [], [];
    }

    /** The subscribe call returns. Its result is stored in the effect's
        variable even when cleanup has already run, and then nothing will
        ever remove it. */
    method SubscribeSettled(result: SubscribeResult)
      requires Valid() && subscribePending
      modifies this`subscribePending, this`subscription, this`leaked
      ensures Valid() && !subscribePending
      ensures subscription == if result.Handle? then Some(result.monitor) else None
      ensures leaked == old(leaked) + if cancelled && result.Handle? then [result.monitor] else []
    {
      subscribePending := false;
      if result.Handle? {
        subscription := Some(result.monitor);
        if cancelled {
          leaked := leaked + [result.monitor];
        }
      }
    }

    /** A line arrives: ignored after cleanup, otherwise appended. */
    method OnLine(line: string)
      requires Valid()
      modifies this`logs
      ensures Valid()
      ensures logs == if cancelled then old(logs) else AppendLine(old(logs), line)
    {
      if !cancelled {
        logs := AppendLine(logs, line);
      }
    }

    /** The trash button. */
    method ClearLogs()
      requires Valid()
      modifies this`logs
      ensures Valid() && logs == []
    {
      logs := [];
    }

    /** Unmount: later lines are ignored from now on, and remove() is called
        only on a subscription that has already resolved to a monitor. */
    method CleanUp()
      requires Valid()
      modifies this`cancelled, this`removed
      ensures Valid() && cancelled
      ensures removed == old(removed) + if subscription.Some? then [subscription.value] else []
    {
      cancelled := true;
      if subscription.Some? {
        removed := removed + [subscription.value];
      }
    }

    /** The terminal view: the lines newest first, drawn from a copy so the
        buffer itself keeps arrival order. */
    method Render() returns (shown: seq<string>)
      requires Valid()
      ensures shown == Reverse(logs)
      ensures |logs| > 0 ==> shown[0] == logs[|logs| - 1]
    {
      shown := Reverse(logs);
    }
  }
}
