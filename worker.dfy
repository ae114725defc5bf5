/**
 * `DDWorker.run`: reads dd's stderr line by line, relays the lines that
 * mention "bytes" as progress text, and signals completion once the
 * process has been waited for, whatever its exit status.
 */
module Worker {
  import opened Text

  datatype Event = Progress(text: string) | Finished

  /** A line dd prints about its progress: it contains "bytes". */
  predicate IsProgressLine(line: string)
  {
    Contains(line, "bytes")
  }

  /** The progress events for `lines`, in order (the specification of the
      loop in `run`), defined from the last line backwards. */
  function Relayed(lines: seq<string>): (r: seq<Event>)
    ensures |r| <= |lines|
    ensures forall k :: 0 <= k < |r| ==> r[k].Progress?
  {
    if lines == [] then []
    else
      var last := lines[|lines| - 1];
      Relayed(lines[..|lines| - 1]) + (if IsProgressLine(last) then [Progress(Strip(last))] else [])
  }

  /** The indices of the progress lines, in increasing order: an independent
      account of which lines are relayed. */
  function ProgressIndices(lines: seq<string>): (ix: seq<nat>)
    ensures forall k :: 0 <= k < |ix| ==> ix[k] < |lines| && IsProgressLine(lines[ix[k]])
    ensures forall k, m :: 0 <= k < m < |ix| ==> ix[k] < ix[m]
    ensures forall i :: 0 <= i < |lines| && IsProgressLine(lines[i]) ==> i in ix
  {
    if lines == [] then []
    else
      var n := |lines| - 1;
      var front := ProgressIndices(lines[..n]);
      assert forall i :: 0 <= i < n ==> lines[..n][i] == lines[i];
      front + (if IsProgressLine(lines[n]) then [n] else [])
  }

  /** The k-th progress event is the stripped text of the k-th progress line:
      exactly the lines mentioning "bytes" are relayed, none twice, in the
      order dd wrote them. */
  lemma {:induction false} RelayedMatchesIndices(lines: seq<string>)
    ensures |Relayed(lines)| == |ProgressIndices(lines)|
    ensures forall k :: 0 <= k < |Relayed(lines)| ==>
              Relayed(lines)[k] == Progress(Strip(lines[ProgressIndices(lines)[k]]))
  {
    if lines != [] {
      var n := |lines| - 1;
      var front := lines[..n];
      RelayedMatchesIndices(front);
      var r, ix := Relayed(front), ProgressIndices(front);
      var last := if IsProgressLine(lines[n]) then [Progress(Strip(lines[n]))] else [];
      var lastIx := if IsProgressLine(lines[n]) then [n] else [];
      assert Relayed(lines) == r + last;
      assert ProgressIndices(lines) == ix + lastIx;
      forall k | 0 <= k < |r + last|
        ensures (r + last)[k] == Progress(Strip(lines[(ix + lastIx)[k]]))
      {
        if k < |r| {
          assert front[ix[k]] == lines[ix[k]];
        }
      }
    }
  }

  /** Relaying two batches of lines gives the events of the first batch,
      then those of the second. */
  lemma {:induction false} RelayedAppend(a: seq<string>, b: seq<string>)
    ensures Relayed(a + b) == Relayed(a) + Relayed(b)
  {
    if b == [] {
      assert a + b == a;
    } else {
      var n := |b| - 1;
      assert (a + b)[..|a + b| - 1] == a + b[..n];
      assert (a + b)[|a + b| - 1] == b[n];
      RelayedAppend(a, b[..n]);
    }
  }

  /** What the GUI does with an event: `update_progress` appends the text to
      the log, `dd_finished` shows the success box. */
  datatype Effect = AppendLog(text: string) | ShowInfo(title: string, text: string)

  function EffectOf(e: Event): (r: Effect)
    ensures r.AppendLog? <==> e.Progress?
    ensures e.Progress? ==> r.text == e.text
    ensures e.Finished? ==> r == ShowInfo("Done", "DD completed successfully.")
  {
    match e
    case Progress(t) => AppendLog(t)
    case Finished => ShowInfo("Done", "DD completed successfully.")
  }

  /** `run` over the stderr lines of one dd process that exits with
      `exitStatus`. The progress events come first, in line order, and the
      single Finished event last; the exit status plays no part, so even a
      failed dd is reported as a success. */
  method Run(lines: seq<string>, exitStatus: int) returns (events: seq<Event>)
    ensures events == Relayed(lines) + [Finished]
    ensures |events| >= 1 && events[|events| - 1] == Finished
    ensures forall k :: 0 <= k < |events| - 1 ==> events[k].Progress?
    ensures EffectOf(events[|events| - 1]) == ShowInfo("Done", "DD completed successfully.")
  {
    events := [];
    var i := 0;
    while i < |lines|
      invariant 0 <= i <= |lines|
      invariant events == Relayed(lines[..i])
    {
      var line := lines[i];
      assert lines[..i + 1][..i] == lines[..i];
      if IsProgressLine(line) {
        events := events + [Progress(Strip(line))];
      }
      i := i + 1;
    }
    assert lines[..i] == lines;
    events := events + [Finished];
  }
}
