/** The statistics parser: it sorts the lines rsync prints after a run into
    buckets by fixed phrases, decodes the counts and sizes from fixed token
    positions (two dialects: rsync 3 with thousands separators, rsync 2 and
    openrsync without), and builds the one-line "N files : X MB in Y seconds"
    summary from the sent/received/bytes-per-second line. */
module ParseRsyncOutput {
  import opened Wrappers
  import opened Strings
  import opened Numerals

  // The phrases that sort the statistics lines into buckets.
  const FilesTransferredPhrase: string := "files transferred:"
  const TransferredSizePhrase: string := "Total transferred file size:"
  const TotalSizePhrase: string := "Total file size:"
  const FileCountPhrase: string := "Number of files:"
  const CreatedPhrase: string := "Number of created files:"
  const DeletedPhrase: string := "Number of deleted files:"

  function HasPhrase(phrase: string): string -> bool {
    (line: string) => Contains(line, phrase)
  }

  /** `output.filter { $0.contains(phrase) }`. */
  function Bucket(lines: seq<string>, phrase: string): seq<string> {
    Filter(lines, HasPhrase(phrase))
  }

  /** A bucket holds exactly the lines that contain its phrase. */
  lemma BucketMember(lines: seq<string>, phrase: string, line: string)
    ensures line in Bucket(lines, phrase) <==> line in lines && Contains(line, phrase)
  {
    FilterMember(lines, HasPhrase(phrase), line);
  }

  /** A bucket keeps the input order: the bucket of a concatenation is the
      concatenation of the buckets. */
  lemma BucketOrder(a: seq<string>, b: seq<string>, phrase: string)
    ensures Bucket(a + b, phrase) == Bucket(a, phrase) + Bucket(b, phrase)
  {
    FilterConcat(a, b, HasPhrase(phrase));
  }

  /** The summary line: the second-last line, when there are more than two. */
  function SummaryLineOf(lines: seq<string>): Option<string> {
    if |lines| > 2 then Some(lines[|lines| - 2]) else None
  }

  /** A line as the decoders see it: rsync 3 groups digits with `,`, which is removed. */
  function Cleaned(line: string, version3: bool): string {
    if version3 then Strip(line, ',') else line
  }

  /** The line split on single spaces; consecutive spaces give empty tokens. */
  function Tokens(line: string, version3: bool): seq<string> {
    Split(Cleaned(line, version3), ' ')
  }

  /** An integer field: 0 when the line has no token `k`, `nil` when that token is not an integer. */
  function IntAt(parts: seq<string>, k: nat): Option<int> {
    if |parts| > k then ParseInt(parts[k]) else Some(0)
  }

  /** A size field: 0 when the line has no token `k`, `nil` when that token is not a number. */
  function DoubleAt(parts: seq<string>, k: nat): Option<real> {
    if |parts| > k then ParseDouble(parts[k]) else Some(0.0)
  }

  /** The directory count of rsync 3's "Number of files:" line: token 7 without `)`. */
  function DirectoriesAt(parts: seq<string>): Option<int> {
    if |parts| > 7 then ParseInt(Strip(parts[7], ')')) else Some(0)
  }

  /** The seven numeric fields the decoders assign. */
  datatype Figures = Figures(
    totNum: Option<int>,
    totDir: Option<int>,
    totNumSize: Option<real>,
    transferNum: Option<int>,
    transferNumSize: Option<real>,
    newfiles: Option<int>,
    deletefiles: Option<int>)

  const NoFigures: Figures := Figures(None, None, None, None, None, None, None)

  /** What `rsyncver3` assigns, given the first line of each of its six buckets. */
  function DecodeV3(files: string, filesSize: string, totfilesNum: string, totfileSize: string,
                    created: string, deleted: string): Figures
  {
    var filesPart := Tokens(files, true);
    var filesPartSize := Tokens(filesSize, true);
    var totfilesPart := Tokens(totfilesNum, true);
    var totfilesPartSize := Tokens(totfileSize, true);
    var newPart := Tokens(created, true);
    var deletePart := Tokens(deleted, true);
    Figures(
      totNum := IntAt(totfilesPart, 5),
      totDir := DirectoriesAt(totfilesPart),
      totNumSize := DoubleAt(totfilesPartSize, 3),
      transferNum := IntAt(filesPart, 5),
      transferNumSize := DoubleAt(filesPartSize, 4),
      newfiles := IntAt(newPart, 4),
      deletefiles := IntAt(deletePart, 4))
  }

  /** What `rsyncver2` assigns, given the first line of each of its four buckets. */
  function DecodeV2(files: string, filesSize: string, totfilesNum: string, totfileSize: string): (r: Figures)
    ensures r.totDir == Some(0) && r.newfiles == Some(0) && r.deletefiles == Some(0)
  {
    var filesPart := Tokens(files, false);
    var filesPartSize := Tokens(filesSize, false);
    var totfilesPart := Tokens(totfilesNum, false);
    var totfilesPartSize := Tokens(totfileSize, false);
    Figures(
      totNum := IntAt(totfilesPart, 3),
      totDir := Some(0),
      totNumSize := DoubleAt(totfilesPartSize, 3),
      transferNum := IntAt(filesPart, 4),
      transferNumSize := DoubleAt(filesPartSize, 4),
      newfiles := Some(0),
      deletefiles := Some(0))
  }

  /** `bucket?.count ?? -1 > 0`. */
  predicate NonEmpty(bucket: Option<seq<string>>) {
    bucket.Some? && |bucket.value| > 0
  }

  /** `bucket?.count == 1`. */
  predicate Single(bucket: Option<seq<string>>) {
    bucket.Some? && |bucket.value| == 1
  }

  /** How numbers become text: `String(Double)` and `String(format: "%.2f", _)`
      on finite values are left to Foundation and taken as given here. */
  datatype NumberFormat = NumberFormat(describe: real -> string, fixed2: real -> string)

  /** `String(format: "%.2f", x)`, with the C library's spelling of the
      results of a division by zero. */
  function Fixed2(x: Float, fmt: NumberFormat): string {
    match x
    case Finite(v) => fmt.fixed2(v)
    case PosInf => "inf"
    case NegInf => "-inf"
    case NaN => "nan"
  }

  /** The sentence `formatresult` assembles. */
  function Sentence(files: string, bytesTotal: real, seconds: Float, fmt: NumberFormat): string {
    files + " files : " + fmt.fixed2(bytesTotal / 1000.0 / 1000.0) + " MB in " + Fixed2(seconds, fmt) + " seconds"
  }

  /** The value of token `k` of the summary line, 0 when it is not a number. */
  function ValueAt(parts: seq<string>, k: nat): real
    requires k < |parts|
  {
    ParseDouble(parts[k]).GetOr(0.0)
  }

  /** The three outcomes of `stats()`, with the numbers it renders. */
  datatype Summary =
    | Estimate(files: int, size: real)
    | Incomplete
    | Throughput(files: int, bytesTotal: real, seconds: Float)

  /** The branch `stats()` takes and the numbers it picks. */
  function Summarize(resultRsync: Option<string>, version3: bool,
                     transferNum: Option<int>, transferNumSize: Option<real>): (r: Summary)
    ensures r.Estimate? <==> resultRsync.None?
    ensures r.Incomplete? <==>
      resultRsync.Some? && multiset(Cleaned(resultRsync.value, version3))[' '] <= 8
    ensures r.Throughput? ==> resultRsync.Some? && |Tokens(resultRsync.value, version3)| > 9
    ensures r.Throughput? && resultRsync.Some? && |Tokens(resultRsync.value, version3)| > 9 ==>
      var parts := Tokens(resultRsync.value, version3);
      var sent, received := ValueAt(parts, 1), ValueAt(parts, 5);
      && r.files == transferNum.GetOr(0)
      && r.bytesTotal >= sent && r.bytesTotal >= received
      && (r.bytesTotal == received || (r.bytesTotal == sent && sent > received))
      && r.seconds == Divide(r.bytesTotal, ValueAt(parts, 8))
  {
    match resultRsync
    case None => Estimate(transferNum.GetOr(0), transferNumSize.GetOr(0.0))
    case Some(line) =>
      var parts := Tokens(line, version3);
      SplitCount(Cleaned(line, version3), ' ');
      if |parts| <= 9 then Incomplete
      else
        var bytesTotalsent := ValueAt(parts, 1);
        var bytesTotalreceived := ValueAt(parts, 5);
        var bytesSec := ValueAt(parts, 8);
        var bytesTotal := if bytesTotalsent > bytesTotalreceived then bytesTotalsent else bytesTotalreceived;
        Throughput(transferNum.GetOr(0), bytesTotal, Divide(bytesTotal, bytesSec))
  }

  /** The text `stats()` returns for each outcome. */
  function Render(s: Summary, fmt: NumberFormat): string {
    match s
    case Estimate(n, size) => IntToString(n) + " files :" + fmt.describe(size) + " KB" + " in just a few seconds"
    case Incomplete => "0"
    case Throughput(n, bytesTotal, seconds) => Sentence(IntToString(n), bytesTotal, seconds, fmt)
  }

  /** The parser's state. Every field is optional, as in the source; the
      buckets `new` and `delete` are called `created` and `deleted` here. */
  class ParseRsyncOutput {
    var resultRsync: Option<string>
    var output: Option<seq<string>>
    var totNum: Option<int>
    var totDir: Option<int>
    var totNumSize: Option<real>
    var transferNum: Option<int>
    var transferNumSize: Option<real>
    var newfiles: Option<int>
    var deletefiles: Option<int>
    var files: Option<seq<string>>
    var filesSize: Option<seq<string>>
    var totfileSize: Option<seq<string>>
    var totfilesNum: Option<seq<string>>
    var created: Option<seq<string>>
    var deleted: Option<seq<string>>
    var version3ofrsync: bool

    /** The seven numeric fields together. */
    function Decoded(): Figures
      reads this
    {
      Figures(totNum, totDir, totNumSize, transferNum, transferNumSize, newfiles, deletefiles)
    }

    /** The four buckets every dialect needs hold exactly one line each. */
    predicate Decodable()
      reads this
    {
      Single(files) && Single(filesSize) && Single(totfileSize) && Single(totfilesNum)
    }

    /** Assigns the seven numeric fields and nothing else. */
    method SetFigures(f: Figures)
      modifies this
      ensures unchanged(this`resultRsync, this`output, this`version3ofrsync)
      ensures unchanged(this`files, this`filesSize, this`totfileSize, this`totfilesNum, this`created, this`deleted)
      ensures Decoded() == f
    {
      totNum, totDir, totNumSize, transferNum := f.totNum, f.totDir, f.totNumSize, f.transferNum;
      transferNumSize, newfiles, deletefiles := f.transferNumSize, f.newfiles, f.deletefiles;
    }

    /** Decodes the rsync 3 statistics; assigns nothing unless all six buckets
        hold a line. */
    method RsyncVer3()
      modifies this
      ensures unchanged(this`resultRsync, this`output, this`version3ofrsync)
      ensures unchanged(this`files, this`filesSize, this`totfileSize, this`totfilesNum, this`created, this`deleted)
      ensures Decoded() ==
        if NonEmpty(files) && NonEmpty(filesSize) && NonEmpty(totfilesNum)
           && NonEmpty(totfileSize) && NonEmpty(created) && NonEmpty(deleted)
        then DecodeV3(files.value[0], filesSize.value[0], totfilesNum.value[0],
                      totfileSize.value[0], created.value[0], deleted.value[0])
        else old(Decoded())
    {
      if NonEmpty(files) && NonEmpty(filesSize) && NonEmpty(totfilesNum)
         && NonEmpty(totfileSize) && NonEmpty(created) && NonEmpty(deleted)
      {
        SetFigures(DecodeV3(files.value[0], filesSize.value[0], totfilesNum.value[0],
                            totfileSize.value[0], created.value[0], deleted.value[0]));
      }
    }

    /** Decodes the rsync 2 / openrsync statistics; assigns nothing unless the
        four buckets it reads hold a line. */
    method RsyncVer2()
      modifies this
      ensures unchanged(this`resultRsync, this`output, this`version3ofrsync)
      ensures unchanged(this`files, this`filesSize, this`totfileSize, this`totfilesNum, this`created, this`deleted)
      ensures Decoded() ==
        if NonEmpty(files) && NonEmpty(filesSize) && NonEmpty(totfilesNum) && NonEmpty(totfileSize)
        then DecodeV2(files.value[0], filesSize.value[0], totfilesNum.value[0], totfileSize.value[0])
        else old(Decoded())
    {
      if NonEmpty(files) && NonEmpty(filesSize) && NonEmpty(totfilesNum) && NonEmpty(totfileSize) {
        SetFigures(DecodeV2(files.value[0], filesSize.value[0], totfilesNum.value[0], totfileSize.value[0]));
      }
    }

    /** The one-line summary of the run. */
    function Stats(fmt: NumberFormat): (r: string)
      reads this
      ensures r == "0" <==>
        resultRsync.Some? && multiset(Cleaned(resultRsync.value, version3ofrsync))[' '] <= 8
      ensures resultRsync.None? ==>
        r == IntToString(transferNum.GetOr(0)) + " files :" + fmt.describe(transferNumSize.GetOr(0.0))
             + " KB" + " in just a few seconds"
    {
      Render(Summarize(resultRsync, version3ofrsync, transferNum, transferNumSize), fmt)
    }

    /** "N files : X MB in Y seconds", where N is the given count or, without
        one, the number of captured lines. */
    function FormatResult(numberOfFiles: Option<string>, bytesTotal: real, seconds: Float,
                          fmt: NumberFormat): (r: string)
      reads this
      ensures
        var n := if numberOfFiles.Some? then numberOfFiles.value
                 else IntToString(if output.Some? then |output.value| else 0);
        |r| >= |n| + 9 + 8 && r[..|n| + 9] == n + " files : " && r[|r| - 8..] == " seconds"
    {
      if numberOfFiles.None? then
        Sentence(IntToString(if output.Some? then |output.value| else 0), bytesTotal, seconds, fmt)
      else
        Sentence(numberOfFiles.value, bytesTotal, seconds, fmt)
    }

    /** The output, its summary line and the six buckets, as `init` captures
        them from `lines`. */
    predicate Captured(lines: seq<string>)
      reads this`output, this`resultRsync, this`files, this`filesSize, this`totfileSize
      reads this`totfilesNum, this`created, this`deleted
    {
      && output == Some(lines)
      && resultRsync == SummaryLineOf(lines)
      && files == Some(Bucket(lines, FilesTransferredPhrase))
      && filesSize == Some(Bucket(lines, TransferredSizePhrase))
      && totfileSize == Some(Bucket(lines, TotalSizePhrase))
      && totfilesNum == Some(Bucket(lines, FileCountPhrase))
      && created == Some(Bucket(lines, CreatedPhrase))
      && deleted == Some(Bucket(lines, DeletedPhrase))
    }

    /** Nothing captured: no output, no summary line, no bucket. */
    predicate Blank()
      reads this`output, this`resultRsync, this`files, this`filesSize, this`totfileSize
      reads this`totfilesNum, this`created, this`deleted
    {
      && output.None? && resultRsync.None?
      && files.None? && filesSize.None? && totfileSize.None? && totfilesNum.None?
      && created.None? && deleted.None?
    }

    /** Captures the lines and decodes them; `myoutput` is the output already
        stripped of lines ending in `/`. An empty output leaves every field
        `nil`; when one of the four common buckets does not hold exactly one
        line, only the file count is set, to the number of lines. */
    constructor(myoutput: seq<string>, myversion3ofrsync: bool)
      ensures version3ofrsync == myversion3ofrsync
      ensures |myoutput| == 0 ==> Blank() && Decoded() == NoFigures
      ensures |myoutput| > 0 ==> Captured(myoutput)
      ensures |myoutput| > 0 && !Decodable() ==>
        Decoded() == NoFigures.(transferNum := Some(|myoutput|))
      ensures |myoutput| > 0 && Decodable() && myversion3ofrsync ==>
        Decoded() ==
          if NonEmpty(created) && NonEmpty(deleted)
          then DecodeV3(files.value[0], filesSize.value[0], totfilesNum.value[0],
                        totfileSize.value[0], created.value[0], deleted.value[0])
          else NoFigures
      ensures |myoutput| > 0 && Decodable() && !myversion3ofrsync ==>
        Decoded() == DecodeV2(files.value[0], filesSize.value[0], totfilesNum.value[0], totfileSize.value[0])
    {
      version3ofrsync := myversion3ofrsync;
      totNum, totDir, totNumSize, transferNum := None, None, None, None;
      transferNumSize, newfiles, deletefiles := None, None, None;
      if |myoutput| == 0 {
        resultRsync, output := None, None;
        files, filesSize, totfileSize, totfilesNum, created, deleted := None, None, None, None, None, None;
      } else {
        output := Some(myoutput);
        resultRsync := if |myoutput| > 2 then Some(myoutput[|myoutput| - 2]) else None;
        files := Some(Bucket(myoutput, FilesTransferredPhrase));
        filesSize := Some(Bucket(myoutput, TransferredSizePhrase));
        totfileSize := Some(Bucket(myoutput, TotalSizePhrase));
        totfilesNum := Some(Bucket(myoutput, FileCountPhrase));
        created := Some(Bucket(myoutput, CreatedPhrase));
        deleted := Some(Bucket(myoutput, DeletedPhrase));
      }
      new;
      if |myoutput| > 0 {
        if Decodable() {
          if version3ofrsync {
            RsyncVer3();
          } else {
            RsyncVer2();
          }
        } else {
          transferNum := Some(|myoutput|);
        }
      }
    }
  }

  /** When the summary line has enough tokens, `stats()` hands the larger of
      sent and received, and the seconds, to `formatresult` with the file count. */
  lemma StatsUsesFormatResult(p: ParseRsyncOutput, fmt: NumberFormat)
    requires Summarize(p.resultRsync, p.version3ofrsync, p.transferNum, p.transferNumSize).Throughput?
    ensures
      var s := Summarize(p.resultRsync, p.version3ofrsync, p.transferNum, p.transferNumSize);
      p.Stats(fmt) == p.FormatResult(Some(IntToString(p.transferNum.GetOr(0))), s.bytesTotal, s.seconds, fmt)
  {
  }
}
