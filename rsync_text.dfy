/** The statistics lines rsync prints, written out from the numbers they
    report, and the proofs that the decoders read those numbers back: the
    token positions the parser uses are the right ones for both dialects. */
module RsyncText {
  import opened Wrappers
  import opened Strings
  import opened Numerals
  import opened ParseRsyncOutput

  /** A count or size as rsync prints it: grouped by thousands in rsync 3,
      plain digits in rsync 2 and openrsync. */
  function Num(n: nat, version3: bool): string {
    if version3 then Grouped(n) else NatToString(n)
  }

  /** A line made of words separated by single spaces. */
  function Line(words: seq<string>): string
    requires |words| >= 1
  {
    Join(words, ' ')
  }

  /** A word the parser neither splits nor strips: no space, no comma. */
  predicate Plain(w: string) {
    ' ' !in w && ',' !in w
  }

  /** Words that hold no space. */
  predicate SpaceFree(ws: seq<string>) {
    forall w | w in ws :: ' ' !in w
  }

  // The fixed words of each statistics line, before the number.
  const RegularTransferredLead: seq<string> := ["Number", "of", "regular", "files", "transferred:"]
  const FilesTransferredLead: seq<string> := ["Number", "of", "files", "transferred:"]
  const TransferredSizeLead: seq<string> := ["Total", "transferred", "file", "size:"]
  const TotalSizeLead: seq<string> := ["Total", "file", "size:"]
  const FileCountLead: seq<string> := ["Number", "of", "files:"]
  const CreatedLead: seq<string> := ["Number", "of", "created", "files:"]
  const DeletedLead: seq<string> := ["Number", "of", "deleted", "files:"]

  lemma TransferLeadsPlain()
    ensures forall w | w in RegularTransferredLead :: Plain(w)
    ensures forall w | w in FilesTransferredLead :: Plain(w)
  {
  }

  lemma SizeLeadsPlain()
    ensures forall w | w in TransferredSizeLead :: Plain(w)
    ensures forall w | w in TotalSizeLead :: Plain(w)
    ensures Plain("bytes")
  {
  }

  lemma LiteralWordsPlain()
    ensures Plain("sent") && Plain("bytes") && Plain("") && Plain("received") && Plain("bytes/sec")
    ensures Plain("(reg:") && Plain("dir:") && Plain("link:")
  {
  }

  /** Space-free words make a space-free line. */
  lemma SpaceFreeConcat(a: seq<string>, b: seq<string>)
    requires SpaceFree(a) && SpaceFree(b)
    ensures SpaceFree(a + b)
  {
  }

  lemma CountLeadsPlain()
    ensures forall w | w in FileCountLead :: Plain(w)
    ensures forall w | w in CreatedLead :: Plain(w)
    ensures forall w | w in DeletedLead :: Plain(w)
  {
  }

  /** "Number of regular files transferred: 24" (rsync 3) or
      "Number of files transferred: 24" (rsync 2). */
  function FilesTransferredWords(n: nat, version3: bool): seq<string> {
    (if version3 then RegularTransferredLead else FilesTransferredLead) + [Num(n, version3)]
  }

  /** "Total transferred file size: 278,642 bytes". */
  function TransferredSizeWords(n: nat, version3: bool): seq<string> {
    TransferredSizeLead + [Num(n, version3), "bytes"]
  }

  /** "Total file size: 1,016,382,148 bytes". */
  function TotalSizeWords(n: nat, version3: bool): seq<string> {
    TotalSizeLead + [Num(n, version3), "bytes"]
  }

  /** rsync 2's "Number of files: 3956". */
  function FileCountWordsV2(n: nat): seq<string> {
    FileCountLead + [NatToString(n)]
  }

  /** rsync 3's "Number of files: 3,956 (reg: 3,197, dir: 758, link: 1)", in
      the shape that carries both a `reg:` and a `dir:` count; the link count
      is absent when there are no links. */
  function FileCountWordsV3(total: nat, regular: nat, dirs: nat, links: Option<nat>): seq<string> {
    FileCountHead(total, regular) + FileCountTail(dirs, links)
  }

  /** "Number of files: 3,956 (reg: 3,197, dir:" */
  function FileCountHead(total: nat, regular: nat): seq<string> {
    FileCountLead + [Grouped(total), "(reg:", Grouped(regular) + ",", "dir:"]
  }

  /** "758, link: 1)" or "758)" */
  function FileCountTail(dirs: nat, links: Option<nat>): seq<string> {
    match links
    case None => [Grouped(dirs) + ")"]
    case Some(l) => [Grouped(dirs) + ",", "link:", Grouped(l) + ")"]
  }

  /** "Number of created files: 15", without the per-category breakdown. */
  function CreatedWords(n: nat): seq<string> {
    CreatedLead + [Grouped(n)]
  }

  /** "Number of deleted files: 3", without the per-category breakdown. */
  function DeletedWords(n: nat): seq<string> {
    DeletedLead + [Grouped(n)]
  }

  /** "sent 409,687 bytes  received 5,331 bytes  830,036.00 bytes/sec": two
      spaces before "received" and before the rate. */
  function SummaryWords(sent: nat, received: nat, rateWhole: nat, rateCents: nat, version3: bool): seq<string>
    requires rateCents < 100
  {
    ["sent", Num(sent, version3), "bytes", "", "received", Num(received, version3), "bytes", "",
     Num(rateWhole, version3) + "." + Pad2(rateCents), "bytes/sec"]
  }

  /** The tokens of a line of space-free words are its words, each with the
      thousands separators removed in rsync 3 mode. */
  lemma TokensOfLine(ws: seq<string>, version3: bool)
    requires |ws| >= 1 && SpaceFree(ws)
    ensures |Tokens(Line(ws), version3)| == |ws|
    ensures forall i :: 0 <= i < |ws| ==> Tokens(Line(ws), version3)[i] == Cleaned(ws[i], version3)
  {
    if version3 {
      StripJoin(ws, ' ', ',');
      var st := StripAll(ws, ',');
      forall w | w in st
        ensures ' ' !in w
      {
        var i :| 0 <= i < |st| && st[i] == w;
        assert ws[i] in ws;
        StripMember(ws[i], ',', ' ');
      }
      SplitJoin(st, ' ');
    } else {
      SplitJoin(ws, ' ');
    }
  }

  /** In a line of plain words with one number, the number's token is its
      plain digits, at the number's position. */
  lemma NumberAt(lead: seq<string>, n: nat, tail: seq<string>, version3: bool)
    requires forall w | w in lead :: Plain(w)
    requires forall w | w in tail :: Plain(w)
    ensures var parts := Tokens(Line(lead + [Num(n, version3)] + tail), version3);
      |parts| == |lead| + 1 + |tail| && parts[|lead|] == NatToString(n)
  {
    var ws := lead + [Num(n, version3)] + tail;
    NumWord(n, version3);
    assert ws[|lead|] == Num(n, version3);
    TokensOfLine(ws, version3);
  }

  /** A printed number holds no space, and its token is its plain digits. */
  lemma NumWord(n: nat, version3: bool)
    ensures ' ' !in Num(n, version3)
    ensures Cleaned(Num(n, version3), version3) == NatToString(n)
  {
    if version3 {
      GroupedChars(n);
      StripGrouped(n);
    } else {
      DigitsFree(NatToString(n));
    }
  }

  /** A grouped number followed by one punctuation mark loses its commas. */
  lemma GroupedWord(n: nat, mark: string)
    requires mark == "," || mark == ")"
    ensures ' ' !in Grouped(n) + mark
    ensures Cleaned(Grouped(n) + mark, true) == NatToString(n) + (if mark == "," then "" else ")")
  {
    NumWord(n, true);
    StripConcat(Grouped(n), mark, ',');
    if mark == "," {
      assert Strip(mark, ',') == [];
    } else {
      StripAbsent(mark, ',');
    }
  }

  /** An rsync count prints and reads back as itself. */
  lemma CountReadsBack(n: nat)
    requires n <= IntMax
    ensures ParseInt(NatToString(n)) == Some(n)
    ensures Strip(NatToString(n), ')') == NatToString(n)
  {
    ParseIntToString(n);
    StripDigits(NatToString(n));
  }

  /** The statistics of one rsync 3 run, as its summary prints them. */
  datatype RunStats = RunStats(
    files: nat,
    regular: nat,
    dirs: nat,
    links: Option<nat>,
    totalSize: nat,
    transferred: nat,
    transferredSize: nat,
    created: nat,
    deleted: nat)

  /** Every count a decoder reads fits a 64-bit integer. */
  predicate Representable(st: RunStats) {
    st.regular <= IntMax && st.dirs <= IntMax && st.transferred <= IntMax
    && st.created <= IntMax && st.deleted <= IntMax
  }

  lemma TransferredReadsBack(n: nat, version3: bool)
    requires n <= IntMax
    ensures IntAt(Tokens(Line(FilesTransferredWords(n, version3)), version3), if version3 then 5 else 4) == Some(n)
  {
    TransferLeadsPlain();
    NumberAt(if version3 then RegularTransferredLead else FilesTransferredLead, n, [], version3);
    assert FilesTransferredWords(n, version3)
        == (if version3 then RegularTransferredLead else FilesTransferredLead) + [Num(n, version3)] + [];
    CountReadsBack(n);
  }

  lemma TransferredSizeReadsBack(n: nat, version3: bool)
    ensures DoubleAt(Tokens(Line(TransferredSizeWords(n, version3)), version3), 4) == Some(n as real)
  {
    SizeLeadsPlain();
    NumberAt(TransferredSizeLead, n, ["bytes"], version3);
    assert TransferredSizeWords(n, version3) == TransferredSizeLead + [Num(n, version3)] + ["bytes"];
    ParseDoubleOfNat(n);
  }

  lemma TotalSizeReadsBack(n: nat, version3: bool)
    ensures DoubleAt(Tokens(Line(TotalSizeWords(n, version3)), version3), 3) == Some(n as real)
  {
    SizeLeadsPlain();
    NumberAt(TotalSizeLead, n, ["bytes"], version3);
    assert TotalSizeWords(n, version3) == TotalSizeLead + [Num(n, version3)] + ["bytes"];
    ParseDoubleOfNat(n);
  }

  lemma FileCountHeadSpaceFree(total: nat, regular: nat)
    ensures SpaceFree(FileCountHead(total, regular))
  {
    CountLeadsPlain();
    LiteralWordsPlain();
    NumWord(total, true);
    GroupedWord(regular, ",");
    var head := FileCountHead(total, regular);
    forall k | 0 <= k < |head|
      ensures ' ' !in head[k]
    {
      if k < 3 {
        assert head[k] == FileCountLead[k];
        assert Plain(FileCountLead[k]);
      } else if k == 4 || k == 6 {
        assert Plain(head[k]);
      }
    }
  }

  lemma FileCountTailSpaceFree(dirs: nat, links: Option<nat>)
    ensures SpaceFree(FileCountTail(dirs, links))
  {
    GroupedWord(dirs, if links.None? then ")" else ",");
    if links.Some? {
      LiteralWordsPlain();
      GroupedWord(links.value, ")");
    }
  }

  lemma FileCountV3SpaceFree(total: nat, regular: nat, dirs: nat, links: Option<nat>)
    ensures SpaceFree(FileCountWordsV3(total, regular, dirs, links))
  {
    FileCountHeadSpaceFree(total, regular);
    FileCountTailSpaceFree(dirs, links);
    SpaceFreeConcat(FileCountHead(total, regular), FileCountTail(dirs, links));
  }

  /** Token 5 of rsync 3's "Number of files:" line is the regular-file count
      and token 7 the directory count, followed by `)` when no link count
      comes after it. */
  lemma FileCountV3Tokens(total: nat, regular: nat, dirs: nat, links: Option<nat>)
    ensures var parts := Tokens(Line(FileCountWordsV3(total, regular, dirs, links)), true);
      |parts| > 7 && parts[5] == NatToString(regular)
      && parts[7] == NatToString(dirs) + (if links.None? then ")" else "")
  {
    var ws := FileCountWordsV3(total, regular, dirs, links);
    FileCountV3SpaceFree(total, regular, dirs, links);
    GroupedWord(regular, ",");
    GroupedWord(dirs, if links.None? then ")" else ",");
    assert ws[5] == Grouped(regular) + "," && ws[7] == Grouped(dirs) + (if links.None? then ")" else ",");
    TokensOfLine(ws, true);
  }

  /** The two counts decoded from the tokens of a "Number of files:" line. */
  lemma CountsFromTokens(parts: seq<string>, regular: nat, dirs: nat, closed: bool)
    requires regular <= IntMax && dirs <= IntMax
    requires |parts| > 7 && parts[5] == NatToString(regular)
    requires parts[7] == NatToString(dirs) + (if closed then ")" else "")
    ensures IntAt(parts, 5) == Some(regular) && DirectoriesAt(parts) == Some(dirs)
  {
    CountReadsBack(regular);
    CountReadsBack(dirs);
    if closed {
      var d := NatToString(dirs);
      StripConcat(d, ")", ')');
      assert Strip(")", ')') == [];
      assert Strip(parts[7], ')') == d + [];
      assert d + [] == d;
      assert DirectoriesAt(parts) == ParseInt(d);
    } else {
      assert parts[7] == NatToString(dirs);
    }
  }

  /** `rsyncver3` reads the regular-file and directory counts back from
      rsync 3's "Number of files:" line when it carries both a `reg:` and a
      `dir:` count, with or without a link count. */
  lemma FileCountV3ReadsBack(total: nat, regular: nat, dirs: nat, links: Option<nat>)
    requires regular <= IntMax && dirs <= IntMax
    ensures var parts := Tokens(Line(FileCountWordsV3(total, regular, dirs, links)), true);
      IntAt(parts, 5) == Some(regular) && DirectoriesAt(parts) == Some(dirs)
  {
    var parts := Tokens(Line(FileCountWordsV3(total, regular, dirs, links)), true);
    FileCountV3Tokens(total, regular, dirs, links);
    CountsFromTokens(parts, regular, dirs, links.None?);
  }

  /** rsync 3.1's "Number of files: 1 (reg: 1)": a run with no directories
      and no links, where the category list closes after the regular count. */
  function FileCountWordsRegOnly(total: nat, regular: nat): seq<string> {
    FileCountLead + [Grouped(total), "(reg:", Grouped(regular) + ")"]
  }

  lemma FileCountRegOnlySpaceFree(total: nat, regular: nat)
    ensures SpaceFree(FileCountWordsRegOnly(total, regular))
  {
    CountLeadsPlain();
    LiteralWordsPlain();
    NumWord(total, true);
    GroupedWord(regular, ")");
    var ws := FileCountWordsRegOnly(total, regular);
    forall k | 0 <= k < |ws|
      ensures ' ' !in ws[k]
    {
      if k < 3 {
        assert ws[k] == FileCountLead[k];
        assert Plain(FileCountLead[k]);
      } else if k == 4 {
        assert Plain(ws[k]);
      }
    }
  }

  /** On that line `rsyncver3` reads no regular-file count, because token 5
      is the count followed by `)`, which `Int` rejects, and reads 0
      directories, because the line has no token 7. */
  lemma FileCountRegOnlyMisread(total: nat, regular: nat)
    ensures var parts := Tokens(Line(FileCountWordsRegOnly(total, regular)), true);
      |parts| == 6 && IntAt(parts, 5) == None && DirectoriesAt(parts) == Some(0)
  {
    var ws := FileCountWordsRegOnly(total, regular);
    FileCountRegOnlySpaceFree(total, regular);
    TokensOfLine(ws, true);
    GroupedWord(regular, ")");
    var parts := Tokens(Line(ws), true);
    var d := parts[5];
    assert d == NatToString(regular) + ")" by {
      assert ws[5] == Grouped(regular) + ")";
    }
    assert !AllDigits(d) by {
      assert d[|d| - 1] == ')';
    }
    assert IsDigit(d[0]);
  }

  lemma FileCountV2ReadsBack(n: nat)
    requires n <= IntMax
    ensures IntAt(Tokens(Line(FileCountWordsV2(n)), false), 3) == Some(n)
  {
    CountLeadsPlain();
    NumberAt(FileCountLead, n, [], false);
    assert FileCountWordsV2(n) == FileCountLead + [Num(n, false)] + [];
    CountReadsBack(n);
  }

  lemma CreatedReadsBack(n: nat)
    requires n <= IntMax
    ensures IntAt(Tokens(Line(CreatedWords(n)), true), 4) == Some(n)
  {
    CountLeadsPlain();
    NumberAt(CreatedLead, n, [], true);
    assert CreatedWords(n) == CreatedLead + [Num(n, true)] + [];
    CountReadsBack(n);
  }

  lemma DeletedReadsBack(n: nat)
    requires n <= IntMax
    ensures IntAt(Tokens(Line(DeletedWords(n)), true), 4) == Some(n)
  {
    CountLeadsPlain();
    NumberAt(DeletedLead, n, [], true);
    assert DeletedWords(n) == DeletedLead + [Num(n, true)] + [];
    CountReadsBack(n);
  }

  /** `rsyncver3` recovers every figure from rsync 3's lines in the shapes
      above (a "Number of files:" line with both `reg:` and `dir:` counts,
      created and deleted totals without a breakdown): the regular-file count
      as `totNum`, the directory count, both sizes, the transferred, created
      and deleted counts. */
  lemma DecodeV3RoundTrip(st: RunStats)
    requires Representable(st)
    ensures DecodeV3(Line(FilesTransferredWords(st.transferred, true)),
                     Line(TransferredSizeWords(st.transferredSize, true)),
                     Line(FileCountWordsV3(st.files, st.regular, st.dirs, st.links)),
                     Line(TotalSizeWords(st.totalSize, true)),
                     Line(CreatedWords(st.created)),
                     Line(DeletedWords(st.deleted)))
         == Figures(Some(st.regular), Some(st.dirs), Some(st.totalSize as real), Some(st.transferred),
                    Some(st.transferredSize as real), Some(st.created), Some(st.deleted))
  {
    TransferredReadsBack(st.transferred, true);
    TransferredSizeReadsBack(st.transferredSize, true);
    FileCountV3ReadsBack(st.files, st.regular, st.dirs, st.links);
    TotalSizeReadsBack(st.totalSize, true);
    CreatedReadsBack(st.created);
    DeletedReadsBack(st.deleted);
  }

  /** `rsyncver2` recovers the total and transferred counts and sizes from the
      lines rsync 2 prints, and reports no directories, created or deleted files. */
  lemma DecodeV2RoundTrip(files: nat, totalSize: nat, transferred: nat, transferredSize: nat)
    requires files <= IntMax && transferred <= IntMax
    ensures DecodeV2(Line(FilesTransferredWords(transferred, false)),
                     Line(TransferredSizeWords(transferredSize, false)),
                     Line(FileCountWordsV2(files)),
                     Line(TotalSizeWords(totalSize, false)))
         == Figures(Some(files), Some(0), Some(totalSize as real), Some(transferred),
                    Some(transferredSize as real), Some(0), Some(0))
  {
    TransferredReadsBack(transferred, false);
    TransferredSizeReadsBack(transferredSize, false);
    FileCountV2ReadsBack(files);
    TotalSizeReadsBack(totalSize, false);
  }

  /** The rate token reads back as its value with two decimals. */
  lemma RateWord(w: nat, c: nat, version3: bool)
    requires c < 100
    ensures ' ' !in Num(w, version3) + "." + Pad2(c)
    ensures ParseDouble(Cleaned(Num(w, version3) + "." + Pad2(c), version3)) == Some(w as real + c as real / 100.0)
  {
    NumWord(w, version3);
    Pad2Value(c);
    DigitsFree(Pad2(c));
    assert ' ' !in ".";
    if version3 {
      StripConcat(Num(w, version3) + ".", Pad2(c), ',');
      StripConcat(Num(w, version3), ".", ',');
      StripAbsent(".", ',');
      StripAbsent(Pad2(c), ',');
    }
    ParseDoubleDecimal(w, c);
  }

  lemma SummarySpaceFree(sent: nat, received: nat, rateWhole: nat, rateCents: nat, version3: bool)
    requires rateCents < 100
    ensures SpaceFree(SummaryWords(sent, received, rateWhole, rateCents, version3))
  {
    LiteralWordsPlain();
    NumWord(sent, version3);
    NumWord(received, version3);
    RateWord(rateWhole, rateCents, version3);
    var ws := SummaryWords(sent, received, rateWhole, rateCents, version3);
    forall i | 0 <= i < |ws|
      ensures ' ' !in ws[i]
    {
      if i == 0 {
        assert ws[i] == "sent";
      } else if i == 2 || i == 6 {
        assert ws[i] == "bytes";
      } else if i == 3 || i == 7 {
        assert ws[i] == "";
      } else if i == 4 {
        assert ws[i] == "received";
      } else if i == 9 {
        assert ws[i] == "bytes/sec";
      }
    }
  }


  /** The summary line has ten tokens: the bytes sent at 1, received at 5
      and the rate at 8. */
  lemma SummaryTokens(sent: nat, received: nat, rateWhole: nat, rateCents: nat, version3: bool)
    requires rateCents < 100
    ensures var parts := Tokens(Line(SummaryWords(sent, received, rateWhole, rateCents, version3)), version3);
      && |parts| == 10
      && parts[1] == NatToString(sent) && parts[5] == NatToString(received)
      && ParseDouble(parts[8]) == Some(rateWhole as real + rateCents as real / 100.0)
  {
    var ws := SummaryWords(sent, received, rateWhole, rateCents, version3);
    SummarySpaceFree(sent, received, rateWhole, rateCents, version3);
    TokensOfLine(ws, version3);
    var parts := Tokens(Line(ws), version3);
    assert parts[1] == Cleaned(Num(sent, version3), version3) by {
      assert ws[1] == Num(sent, version3);
    }
    assert parts[5] == Cleaned(Num(received, version3), version3) by {
      assert ws[5] == Num(received, version3);
    }
    assert parts[8] == Cleaned(Num(rateWhole, version3) + "." + Pad2(rateCents), version3) by {
      assert ws[8] == Num(rateWhole, version3) + "." + Pad2(rateCents);
    }
    NumWord(sent, version3);
    NumWord(received, version3);
    RateWord(rateWhole, rateCents, version3);
  }

  /** On the summary line rsync prints, `stats()` takes the larger of the
      bytes sent and received as the amount moved, and that amount over the
      printed rate as the time taken. */
  lemma SummaryRoundTrip(sent: nat, received: nat, rateWhole: nat, rateCents: nat, version3: bool,
                         transferNum: Option<int>, transferNumSize: Option<real>)
    requires rateCents < 100
    ensures
      var line := Line(SummaryWords(sent, received, rateWhole, rateCents, version3));
      var moved := if sent > received then sent else received;
      Summarize(Some(line), version3, transferNum, transferNumSize)
        == Throughput(transferNum.GetOr(0), moved as real,
                      Divide(moved as real, rateWhole as real + rateCents as real / 100.0))
  {
    SummaryTokens(sent, received, rateWhole, rateCents, version3);
    ParseDoubleOfNat(sent);
    ParseDoubleOfNat(received);
  }

  /** Given rsync's summary line, `stats()` reports the file count, the larger
      of the bytes sent and received, and that amount over the printed rate. */
  lemma StatsOfSummaryLine(p: ParseRsyncOutput, fmt: NumberFormat,
                           sent: nat, received: nat, rateWhole: nat, rateCents: nat)
    requires rateCents < 100
    requires p.resultRsync == Some(Line(SummaryWords(sent, received, rateWhole, rateCents, p.version3ofrsync)))
    ensures
      var moved := if sent > received then sent else received;
      p.Stats(fmt) == Sentence(IntToString(p.transferNum.GetOr(0)), moved as real,
                               Divide(moved as real, rateWhole as real + rateCents as real / 100.0), fmt)
  {
    SummaryRoundTrip(sent, received, rateWhole, rateCents, p.version3ofrsync, p.transferNum, p.transferNumSize);
  }
}
