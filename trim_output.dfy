/** The filter that feeds the parser: of rsync's output lines it keeps those
    that do not end in `/`, which drops the directory entries of a file list. */
module TrimOutput {
  import opened Strings

  /** `line.last != "/"`; the empty line has no last character and is kept. */
  predicate KeepLine(line: string) {
    |line| == 0 || line[|line| - 1] != '/'
  }

  /** The lines of `data` that do not end in `/`, in their order. */
  function Trimmed(data: seq<string>): (r: seq<string>)
    ensures |r| <= |data|
  {
    Filter(data, KeepLine)
  }

  /** No kept line ends in `/`. */
  lemma TrimmedNoSlash(data: seq<string>)
    ensures forall i :: 0 <= i < |Trimmed(data)| ==> KeepLine(Trimmed(data)[i])
  {
    FilterSatisfies(data, KeepLine);
  }

  /** A line is kept exactly when it is an input line that does not end in `/`;
      empty lines included. */
  lemma TrimmedMember(data: seq<string>, line: string)
    ensures line in Trimmed(data) <==> line in data && KeepLine(line)
  {
    FilterMember(data, KeepLine, line);
  }

  /** The kept lines keep their relative order: trimming a concatenation
      trims each part. */
  lemma TrimmedOrder(a: seq<string>, b: seq<string>)
    ensures Trimmed(a + b) == Trimmed(a) + Trimmed(b)
  {
    FilterConcat(a, b, KeepLine);
  }

  /** Trimming trimmed output changes nothing. */
  lemma TrimmedIdempotent(data: seq<string>)
    ensures Trimmed(Trimmed(data)) == Trimmed(data)
  {
    FilterIdempotent(data, KeepLine);
  }

  /** Output without lines ending in `/` passes through unchanged. */
  lemma TrimmedKeepsClean(data: seq<string>)
    requires forall i :: 0 <= i < |data| ==> KeepLine(data[i])
    ensures Trimmed(data) == data
  {
    FilterKeepsAll(data, KeepLine);
  }

  /** The filter's state: the lines kept so far. */
  class TrimOutput {
    var trimmeddata: seq<string>

    /** The `receiveValue` closure: keeps one line unless it ends in `/`. */
    method ReceiveValue(line: string)
      modifies this
      ensures trimmeddata == old(trimmeddata) + (if KeepLine(line) then [line] else [])
    {
      if KeepLine(line) {
        trimmeddata := trimmeddata + [line];
      }
    }

    /** Runs every line of `data` through the closure, in order. */
    constructor(data: seq<string>)
      ensures trimmeddata == Trimmed(data)
    {
      trimmeddata := [];
      new;
      var i := 0;
      while i < |data|
        invariant 0 <= i <= |data|
        invariant trimmeddata == Trimmed(data[..i])
      {
        ReceiveValue(data[i]);
        assert data[..i + 1][..i] == data[..i];
        i := i + 1;
      }
      assert data[..|data|] == data;
    }
  }
}
