/**
  The bounded trace of src/bridge/native_actors.cpp (record and flush): a fixed buffer in front of a file that may
  refuse or shorten any write.
*/
module TraceLog {
  import opened Basics

  const BUFFER := 32768
  const LIMIT := 67108864
  const LINE := 3071
  const TERMINAL := 1026

  /** A formatted line; formatting itself may fail. */
  type Line = s: string | |s| <= LINE

  type Terminal = s: string | |s| <= TERMINAL

  /** What the file system answers to a write: a verdict, and how many bytes it took of those it was given. */
  datatype Written = Written(ok: bool, bytes: nat)

  datatype State = State(file: string, buffer: string, failed: bool, writes: nat, accepted: seq<string>)

  datatype Call = Record(line: Option<Line>, terminal: Option<Terminal>) | FlushNow

  function Taken(w: Written, n: nat): nat {
    if w.bytes < n then w.bytes else n
  }

  function Flush(disk: nat -> Written, s: State): State {
    if s.buffer == "" || s.failed then s
    else
      var w := disk(s.writes);
      var n := Taken(w, |s.buffer|);
      s.(file := s.file + s.buffer[..n], buffer := "", failed := !w.ok || n != |s.buffer|, writes := s.writes + 1)
  }

  function Append(disk: nat -> Written, s: State, line: Option<string>): State {
    match line
    case None => s.(failed := true)
    case Some(l) =>
      var t := if |s.buffer| + |l| > BUFFER then Flush(disk, s) else s;
      if t.failed then t else t.(buffer := t.buffer + l, accepted := t.accepted + [l])
  }

  predicate Exhausted(s: State) {
    |s.file| + |s.buffer| >= LIMIT - 4096
  }

  function Step(disk: nat -> Written, s: State, call: Call): State {
    match call
    case FlushNow => Flush(disk, s)
    case Record(line, terminal) =>
      if s.failed then s
      else if Exhausted(s) then Flush(disk, Append(disk, s, terminal)).(failed := true)
      else Append(disk, s, line)
  }

  class Trace {
    const buffer: array<char>
    const disk: nat -> Written
    var used: nat
    var bytesWritten: nat
    var failed: bool
    var writes: nat
    ghost var file: string
    ghost var accepted: seq<string>

    ghost predicate Valid()
      reads this
    {
      buffer.Length == BUFFER && used <= BUFFER && bytesWritten == |file|
    }

    ghost function Contents(): State
      requires Valid()
      reads this, buffer
    {
      State(file, buffer[..used], failed, writes, accepted)
    }

    constructor (disk: nat -> Written)
      ensures Valid() && fresh(buffer) && this.disk == disk && Contents() == State("", "", false, 0, [])
    {
      buffer := new char[BUFFER](_ => ' ');
      this.disk := disk;
      used, bytesWritten, failed, writes := 0, 0, false, 0;
      file, accepted := "", [];
    }

    method FlushBuffer()
      requires Valid()
      modifies this
      ensures Valid() && Contents() == Flush(disk, old(Contents()))
    {
      if used == 0 || failed {
        return;
      }
      var w := disk(writes);
      var n := Taken(w, used);
      if !w.ok || n != used {
        failed := true;
      }
      file := file + buffer[..used][..n];
      bytesWritten := bytesWritten + n;
      used, writes := 0, writes + 1;
    }

    /** No byte is ever copied past the buffer. */
    method Put(line: Option<string>)
      requires Valid() && (line.Some? ==> |line.value| <= LINE) && !failed
      modifies this, buffer
      ensures Valid() && Contents() == Append(disk, old(Contents()), line)
    {
      if line.None? {
        failed := true;
        return;
      }
      var l := line.value;
      if used + |l| > BUFFER {
        FlushBuffer();
      }
      if !failed {
        forall i | 0 <= i < |l| {
          buffer[used + i] := l[i];
        }
        used := used + |l|;
        accepted := accepted + [l];
      }
    }

    method RecordLine(line: Option<Line>, terminal: Option<Terminal>)
      requires Valid()
      modifies this, buffer
      ensures Valid() && Contents() == Step(disk, old(Contents()), Record(line, terminal))
    {
      if failed {
        return;
      }
      if bytesWritten + used >= LIMIT - 4096 {
        Put(terminal);
        FlushBuffer();
        failed := true;
        return;
      }
      Put(line);
    }
  }

  // ---- Whole traces ----

  function Run(disk: nat -> Written, calls: seq<Call>): State {
    if calls == [] then EMPTY else Step(disk, Run(disk, calls[..|calls| - 1]), calls[|calls| - 1])
  }

  function Concat(lines: seq<string>): string {
    if lines == [] then "" else Concat(lines[..|lines| - 1]) + lines[|lines| - 1]
  }

  const EMPTY := State("", "", false, 0, [])

  /** The file is the beginning of the accepted lines, and with the buffer it is all of them while nothing failed. */
  predicate Good(s: State) {
    && |s.buffer| <= BUFFER
    && s.file <= Concat(s.accepted)
    && (!s.failed ==> s.file + s.buffer == Concat(s.accepted) && |s.file| + |s.buffer| < LIMIT - 4096 + LINE)
    && |s.file| <= LIMIT
  }

  ghost predicate Sound(disk: nat -> Written) {
    forall i: nat, n: nat :: disk(i).ok && Taken(disk(i), n) == n
  }

  lemma FlushKeeps(disk: nat -> Written, s: State)
    requires |s.buffer| <= BUFFER && s.file <= Concat(s.accepted)
    requires s.failed || s.file + s.buffer == Concat(s.accepted)
    ensures var t := Flush(disk, s);
            && (s.failed ==> t == s) && t.accepted == s.accepted && |t.buffer| <= BUFFER && t.file <= Concat(t.accepted)
            && (!t.failed ==> t.file + t.buffer == Concat(t.accepted))
            && |t.file| + |t.buffer| <= |s.file| + |s.buffer|
            && (!s.failed ==> t.buffer == "") && (Sound(disk) && !s.failed ==> !t.failed)
            && (!t.failed && !s.failed ==> |t.file| + |t.buffer| == |s.file| + |s.buffer|)
  {}

  function Size(line: Option<string>): nat {
    if line.Some? then |line.value| else 0
  }

  lemma AppendKeeps(disk: nat -> Written, s: State, line: Option<string>)
    requires !s.failed && |s.buffer| <= BUFFER && s.file + s.buffer == Concat(s.accepted)
    requires line.Some? ==> |line.value| <= LINE
    ensures var t := Append(disk, s, line);
            && |t.buffer| <= BUFFER && t.file <= Concat(t.accepted)
            && (!t.failed ==> t.file + t.buffer == Concat(t.accepted))
            && |t.file| + (if t.failed then 0 else |t.buffer|) <= |s.file| + |s.buffer| + Size(line)
            && (Sound(disk) && line.Some? ==> !t.failed && t.accepted == s.accepted + [line.value])
  {
    hide Flush, Sound;
    FlushKeeps(disk, s);
    if line.Some? {
      var t := if |s.buffer| + |line.value| > BUFFER then Flush(disk, s) else s;
      var longer := t.accepted + [line.value];
      assert longer[..|t.accepted|] == t.accepted;
      assert Concat(longer) == Concat(t.accepted) + line.value;
    }
  }

  lemma StepKeeps(disk: nat -> Written, s: State, call: Call)
    requires Good(s)
    ensures Good(Step(disk, s, call))
  {
    hide Flush, Append, Concat;
    FlushKeeps(disk, s);
    if call.Record? && !s.failed {
      if Exhausted(s) {
        if call.terminal.Some? {
          var t: Terminal := call.terminal.value;
          assert Size(call.terminal) == |t|;
        }
        AppendKeeps(disk, s, call.terminal);
        FlushKeeps(disk, Append(disk, s, call.terminal));
      } else {
        AppendKeeps(disk, s, call.line);
      }
    }
  }

  /** Whatever is written and whatever the disk answers: the buffer holds, the file is bounded, and it is a prefix. */
  lemma {:induction false} TraceIsPrefix(disk: nat -> Written, calls: seq<Call>)
    ensures Good(Run(disk, calls))
  {
    hide Good, Step;
    if calls == [] {
      EmptyGood();
    } else {
      TraceIsPrefix(disk, calls[..|calls| - 1]);
      StepKeeps(disk, Run(disk, calls[..|calls| - 1]), calls[|calls| - 1]);
    }
  }

  lemma EmptyGood()
    ensures Good(EMPTY)
  {}

  // ---- Writes that succeed ----

  predicate Formatted(call: Call) {
    call.Record? ==> call.line.Some? && call.terminal.Some?
  }

  /** The lines of these calls, in order. */
  function Lines(calls: seq<Call>): seq<string>
    requires forall i :: 0 <= i < |calls| ==> Formatted(calls[i])
  {
    if calls == [] then []
    else
      var c := calls[|calls| - 1];
      assert Formatted(c);
      Lines(calls[..|calls| - 1]) + if c.Record? then [c.line.value] else []
  }

  /**
    Every line so far was accepted; or the budget of 64 MB less 4096 bytes had been used up before one call, whose
    terminal line is the last of all.
  */
  ghost predicate Complete(s: State, calls: seq<Call>)
    requires forall i :: 0 <= i < |calls| ==> Formatted(calls[i])
  {
    if !s.failed then s.accepted == Lines(calls)
    else
      && s.buffer == "" && s.file == Concat(s.accepted)
      && exists k :: 0 <= k < |calls| && EndedAt(s, calls, k)
  }

  predicate EndedAt(s: State, calls: seq<Call>, k: nat)
    requires k < |calls| && forall i :: 0 <= i < |calls| ==> Formatted(calls[i])
  {
    assert Formatted(calls[k]);
    && calls[k].Record? && s.accepted == Lines(calls[..k]) + [calls[k].terminal.value]
    && |Concat(Lines(calls[..k]))| >= 67108864 - 4096
  }

  lemma StepCompletes(disk: nat -> Written, s: State, calls: seq<Call>, call: Call)
    requires Good(s) && Sound(disk) && Formatted(call)
    requires forall i :: 0 <= i < |calls| ==> Formatted(calls[i])
    requires Complete(s, calls)
    ensures Complete(Step(disk, s, call), calls + [call])
  {
    hide Flush, Append, Concat, Sound;
    var longer := calls + [call];
    assert longer[..|calls|] == calls;
    FlushKeeps(disk, s);
    if s.failed {
      FailedStays(disk, s, call);
      var k :| 0 <= k < |calls| && EndedAt(s, calls, k);
      assert longer[..k] == calls[..k] && EndedAt(s, longer, k);
    } else if call.Record? {
      if Exhausted(s) {
        AppendKeeps(disk, s, call.terminal);
        FlushKeeps(disk, Append(disk, s, call.terminal));
        assert s.file + s.buffer == Concat(s.accepted);
        assert EndedAt(Step(disk, s, call), longer, |calls|);
      } else {
        AppendKeeps(disk, s, call.line);
      }
    }
  }

  lemma FailedStays(disk: nat -> Written, s: State, call: Call)
    requires s.failed
    ensures Step(disk, s, call) == s
  {}

  /**
    With writes that succeed, file plus buffer is the accepted lines in order; when the budget runs out the terminal
    line still fits in the limit, is in the file, and nothing comes after it.
  */
  lemma {:induction false} TraceIsComplete(disk: nat -> Written, calls: seq<Call>)
    requires Sound(disk) && forall i :: 0 <= i < |calls| ==> Formatted(calls[i])
    ensures Complete(Run(disk, calls), calls)
  {
    hide Good, Step, Sound;
    if calls == [] {
      TraceIsPrefix(disk, calls);
    } else {
      var before, call := calls[..|calls| - 1], calls[|calls| - 1];
      TraceIsComplete(disk, before);
      TraceIsPrefix(disk, before);
      TraceIsPrefix(disk, calls);
      StepCompletes(disk, Run(disk, before), before, call);
      assert before + [call] == calls;
    }
  }

  // ---- Single writes ----

  /** A line that fits is buffered without a write; one that does not is preceded by one write of the whole buffer. */
  lemma BuffersExactly(disk: nat -> Written, s: State, line: Line, terminal: Option<Terminal>)
    requires !s.failed && |s.buffer| <= 32768 && |s.file| + |s.buffer| < 67108864 - 4096
    ensures var t := Step(disk, s, Record(Some(line), terminal));
            if |s.buffer| + |line| <= 32768 then
              t == s.(buffer := s.buffer + line, accepted := s.accepted + [line])
            else
              && t.writes == s.writes + 1
              && (disk(s.writes).ok && disk(s.writes).bytes >= |s.buffer| ==>
                    !t.failed && t.file == s.file + s.buffer && t.buffer == line)
  {}

  /** A write that is refused or cut short ends the trace: the file has what was taken, and nothing follows. */
  lemma FailedWriteEnds(disk: nat -> Written, s: State, call: Call)
    requires !s.failed && s.buffer != ""
    requires !disk(s.writes).ok || disk(s.writes).bytes < |s.buffer|
    ensures var t := Step(disk, s, FlushNow);
            && t.failed && t.buffer == "" && t.file == s.file + s.buffer[..Taken(disk(s.writes), |s.buffer|)]
            && Step(disk, t, call) == t
  {}
}
