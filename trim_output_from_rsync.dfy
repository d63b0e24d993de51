/** The same filter as `TrimOutput`, which also watches the kept lines for
    rsync's error report and raises a flag, once, when one appears. */
module TrimOutputFromRsync {
  import opened Wrappers
  import opened Strings
  import opened TrimOutput

  /** The text rsync prints when a run fails. */
  const ErrorPhrase: string := "rsync error:"

  /** The error `checkforrsyncerror` throws. */
  datatype Rsyncerror = RsyncError {
    function ErrorDescription(): string {
      "There are errors in output from rsync"
    }
  }

  /** `checkforrsyncerror`: fails exactly when "rsync error:" occurs somewhere
      in the line. */
  function CheckForRsyncError(line: string): (r: Outcome<Rsyncerror>)
    ensures r.Fail? <==> exists i :: OccursAt(line, ErrorPhrase, i)
  {
    ContainsIff(line, ErrorPhrase);
    if Contains(line, ErrorPhrase) then Fail(RsyncError) else Pass
  }

  /** Whether the filter has met an error line after reading `data`: a kept
      line that fails the check. Lines ending in `/` are never checked. */
  function ErrorSeen(data: seq<string>): bool
    decreases |data|
  {
    if |data| == 0 then false
    else
      var line := data[|data| - 1];
      ErrorSeen(data[..|data| - 1]) || (KeepLine(line) && CheckForRsyncError(line).Fail?)
  }

  /** An error has been seen exactly when some kept line contains the phrase. */
  lemma {:induction false} ErrorSeenIff(data: seq<string>)
    ensures ErrorSeen(data) <==>
      exists k, i :: 0 <= k < |Trimmed(data)| && OccursAt(Trimmed(data)[k], ErrorPhrase, i)
    decreases |data|
  {
    if |data| != 0 {
      var init, line := data[..|data| - 1], data[|data| - 1];
      ErrorSeenIff(init);
      assert data == init + [line];
      TrimmedOrder(init, [line]);
      var t, u := Trimmed(init), Trimmed([line]);
      assert Trimmed(data) == t + u;
      assert u == Filter([], KeepLine) + (if KeepLine(line) then [line] else []) by {
        assert [line][..0] == [];
      }
      if ErrorSeen(data) {
        if ErrorSeen(init) {
          var k, i :| 0 <= k < |t| && OccursAt(t[k], ErrorPhrase, i);
          assert (t + u)[k] == t[k];
        } else {
          var i :| OccursAt(line, ErrorPhrase, i);
          assert (t + u)[|t|] == line;
        }
      }
      if exists k, i :: 0 <= k < |t + u| && OccursAt((t + u)[k], ErrorPhrase, i) {
        var k, i :| 0 <= k < |t + u| && OccursAt((t + u)[k], ErrorPhrase, i);
        if k < |t| {
          assert (t + u)[k] == t[k];
        } else {
          assert (t + u)[k] == line;
        }
      }
    }
  }

  /** Once raised, the flag stays raised whatever lines follow. */
  lemma {:induction false} ErrorSeenMonotone(a: seq<string>, b: seq<string>)
    requires ErrorSeen(a)
    ensures ErrorSeen(a + b)
    decreases |b|
  {
    if |b| == 0 {
      assert a + b == a;
    } else {
      var b' := b[..|b| - 1];
      ErrorSeenMonotone(a, b');
      assert (a + b)[..|a + b| - 1] == a + b';
    }
  }

  /** A line ending in `/` never raises the flag, whatever it contains. */
  lemma SlashLineUnchecked(data: seq<string>, line: string)
    requires !KeepLine(line)
    ensures ErrorSeen(data + [line]) == ErrorSeen(data)
  {
    assert (data + [line])[..|data|] == data;
  }

  /** The filter's state: the kept lines and whether an error line was met. */
  class TrimOutputFromRsync {
    var trimmeddata: seq<string>
    var errordiscovered: bool

    /** The `receiveValue` closure: keeps the line unless it ends in `/`, then
        checks it, and raises the flag on the first error only. */
    method ReceiveValue(line: string)
      modifies this
      ensures trimmeddata == old(trimmeddata) + (if KeepLine(line) then [line] else [])
      ensures errordiscovered == (old(errordiscovered) || (KeepLine(line) && CheckForRsyncError(line).Fail?))
    {
      if KeepLine(line) {
        trimmeddata := trimmeddata + [line];
        var outcome := CheckForRsyncError(line);
        if outcome.Fail? {
          if errordiscovered == false {
            errordiscovered := true;
          }
        }
      }
    }

    /** Runs every line of `data` through the closure, in order. */
    constructor(data: seq<string>)
      ensures trimmeddata == Trimmed(data)
      ensures errordiscovered == ErrorSeen(data)
      ensures errordiscovered <==>
        exists k, i :: 0 <= k < |trimmeddata| && OccursAt(trimmeddata[k], ErrorPhrase, i)
    {
      trimmeddata := [];
      errordiscovered := false;
      new;
      var i := 0;
      while i < |data|
        invariant 0 <= i <= |data|
        invariant trimmeddata == Trimmed(data[..i])
        invariant errordiscovered == ErrorSeen(data[..i])
      {
        ReceiveValue(data[i]);
        assert data[..i + 1][..i] == data[..i];
        i := i + 1;
      }
      assert data[..|data|] == data;
      ErrorSeenIff(data);
    }
  }
}
