/** Splitting the amounts of the clients that match back into their transactions, one zip entry for an input file. */
module Splits {
  import opened Options
  import opened Digits
  import opened Records
  import opened Books
  import opened Control

  datatype ZipEntry = ZipEntry(name: string, lines: seq<string>)

  predicate Matched(records: ControlRecords, code: string) {
    code in records && records[code].AmountsMatch()
  }

  function EntryName(id: nat): string {
    "file" + Pad(id, 1) + ".txt"
  }

  /** The lines of the matched transactions, in order. */
  function MatchedLines(records: ControlRecords, items: seq<Item>): seq<string> {
    if items == [] then []
    else
      var init, item := MatchedLines(records, items[..|items| - 1]), items[|items| - 1];
      if Matched(records, item.client.code) then init + [FormatControl(records[item.client.code], item.amount)]
      else init
  }

  /** The lines of the matched transactions of one input file, in order. */
  function FileLines(records: ControlRecords, items: seq<Item>, file: nat): seq<string> {
    if items == [] then []
    else
      var init, item := FileLines(records, items[..|items| - 1], file), items[|items| - 1];
      if item.file == file && Matched(records, item.client.code)
      then init + [FormatControl(records[item.client.code], item.amount)]
      else init
  }

  predicate MatchedIn(records: ControlRecords, items: seq<Item>, file: nat) {
    exists i | 0 <= i < |items| :: items[i].file == file && Matched(records, items[i].client.code)
  }

  /** An input file has lines exactly when it has a matched transaction. */
  lemma {:induction false} FileLinesNonEmpty(records: ControlRecords, items: seq<Item>, file: nat)
    ensures FileLines(records, items, file) != [] <==> MatchedIn(records, items, file)
  {
    if items != [] {
      var n := |items| - 1;
      FileLinesNonEmpty(records, items[..n], file);
      assert forall i | 0 <= i < n :: items[..n][i] == items[i];
    }
  }

  function Concat(chunks: seq<seq<string>>): seq<string> {
    if chunks == [] then [] else Concat(chunks[..|chunks| - 1]) + chunks[|chunks| - 1]
  }

  predicate Increasing(ids: seq<nat>) {
    |ids| < 2 || (Increasing(ids[..|ids| - 1]) && ids[|ids| - 2] < ids[|ids| - 1])
  }

  /** Every chunk holds all the lines of its own input file; only the first chunk may be empty. */
  predicate ChunksOf(records: ControlRecords, items: seq<Item>, ids: seq<nat>, chunks: seq<seq<string>>) {
    var n := |chunks| - 1;
    && |ids| == |chunks|
    && (chunks != [] ==>
          && ChunksOf(records, items, ids[..n], chunks[..n])
          && chunks[n] == FileLines(records, items, ids[n])
          && (n > 0 ==> chunks[n] != []))
  }

  predicate Covered(records: ControlRecords, items: seq<Item>, ids: seq<nat>) {
    forall i | 0 <= i < |items| :: Matched(records, items[i].client.code) ==> items[i].file in ids
  }

  /** The chunks group the matched lines by input file, starting with the input file `first`. */
  predicate IsSplit(records: ControlRecords, items: seq<Item>, first: nat, ids: seq<nat>, chunks: seq<seq<string>>) {
    && ids != [] && ids[0] == first && Increasing(ids)
    && ChunksOf(records, items, ids, chunks)
    && Covered(records, items, ids)
    && Concat(chunks) == MatchedLines(records, items)
  }

  // ----- One transaction more -----

  lemma OneMoreLine(records: ControlRecords, items: seq<Item>, item: Item, file: nat)
    ensures FileLines(records, items + [item], file)
         == if item.file == file && Matched(records, item.client.code)
            then FileLines(records, items, file) + [FormatControl(records[item.client.code], item.amount)]
            else FileLines(records, items, file)
    ensures MatchedLines(records, items + [item])
         == if Matched(records, item.client.code)
            then MatchedLines(records, items) + [FormatControl(records[item.client.code], item.amount)]
            else MatchedLines(records, items)
  {
    assert (items + [item])[..|items|] == items;
  }

  lemma CoveredOneMore(records: ControlRecords, items: seq<Item>, ids: seq<nat>, item: Item, more: seq<nat>)
    requires Covered(records, items, ids)
    requires Matched(records, item.client.code) ==> item.file in ids + more
    ensures Covered(records, items + [item], ids + more)
  {
  }

  /** The chunks of the other input files stay as they are. */
  lemma {:induction false} OtherChunks(records: ControlRecords, items: seq<Item>, ids: seq<nat>,
                                       chunks: seq<seq<string>>, item: Item)
    requires ChunksOf(records, items, ids, chunks)
    requires Matched(records, item.client.code) ==> item.file !in ids
    ensures ChunksOf(records, items + [item], ids, chunks)
  {
    if chunks != [] {
      var n := |chunks| - 1;
      OtherChunks(records, items, ids[..n], chunks[..n], item);
      OneMoreLine(records, items, item, ids[n]);
    }
  }

  lemma SplitUnmatched(records: ControlRecords, items: seq<Item>, first: nat, ids: seq<nat>,
                       chunks: seq<seq<string>>, item: Item)
    requires IsSplit(records, items, first, ids, chunks) && !Matched(records, item.client.code)
    ensures IsSplit(records, items + [item], first, ids, chunks)
  {
    OtherChunks(records, items, ids, chunks, item);
    CoveredOneMore(records, items, ids, item, []);
    OneMoreLine(records, items, item, first);
    assert ids + [] == ids;
  }

  /** A matched transaction of the current input file goes to the last chunk. */
  lemma SplitSameFile(records: ControlRecords, items: seq<Item>, first: nat, ids: seq<nat>,
                      chunks: seq<seq<string>>, builder: seq<string>, item: Item)
    requires IsSplit(records, items, first, ids, chunks + [builder])
    requires Matched(records, item.client.code) && item.file == ids[|ids| - 1]
    ensures var line := FormatControl(records[item.client.code], item.amount);
            IsSplit(records, items + [item], first, ids, chunks + [builder + [line]])
  {
    var line, n := FormatControl(records[item.client.code], item.amount), |chunks|;
    var before, next := chunks + [builder], chunks + [builder + [line]];
    assert before[..n] == chunks && next[..n] == chunks && before[n] == builder && next[n] == builder + [line];
    OneMoreLine(records, items, item, ids[n]);
    assert ChunksOf(records, items + [item], ids, next) by {
      BelowLast(ids);
      OtherChunks(records, items, ids[..n], chunks, item);
    }
    CoveredOneMore(records, items, ids, item, []);
    assert ids + [] == ids;
    assert Concat(chunks) + (builder + [line]) == Concat(chunks) + builder + [line];
  }

  lemma {:induction false} BelowLast(ids: seq<nat>)
    requires ids != [] && Increasing(ids)
    ensures forall i | 0 <= i < |ids| - 1 :: ids[i] < ids[|ids| - 1]
  {
    if |ids| > 1 { BelowLast(ids[..|ids| - 1]); }
  }

  lemma LaterFileIsNew(records: ControlRecords, items: seq<Item>, ids: seq<nat>, file: nat)
    requires ids != [] && Increasing(ids) && Covered(records, items, ids) && file > ids[|ids| - 1]
    ensures file !in ids && FileLines(records, items, file) == []
  {
    BelowLast(ids);
    FileLinesNonEmpty(records, items, file);
  }

  /** A matched transaction of a later input file starts a new chunk. */
  lemma SplitNewFile(records: ControlRecords, items: seq<Item>, first: nat, ids: seq<nat>,
                     chunks: seq<seq<string>>, item: Item)
    requires IsSplit(records, items, first, ids, chunks)
    requires Matched(records, item.client.code) && item.file > ids[|ids| - 1]
    ensures var line := FormatControl(records[item.client.code], item.amount);
            IsSplit(records, items + [item], first, ids + [item.file], chunks + [[line]])
  {
    var line, n := FormatControl(records[item.client.code], item.amount), |chunks|;
    var (next, more) := (chunks + [[line]], ids + [item.file]);
    assert next[..n] == chunks && next[n] == [line] && more[..n] == ids && more[n] == item.file;
    LaterFileIsNew(records, items, ids, item.file);
    OneMoreLine(records, items, item, item.file);
    assert ChunksOf(records, items + [item], more, next) by {
      OtherChunks(records, items, ids, chunks, item);
      assert FileLines(records, items + [item], item.file) == [] + [line];
    }
    CoveredOneMore(records, items, ids, item, [item.file]);
  }

  // ----- The split files -----

  /** The lines of the entries, entry by entry. */
  function ZipLines(zip: seq<ZipEntry>): seq<seq<string>> {
    seq(|zip|, i requires 0 <= i < |zip| => zip[i].lines)
  }

  predicate NamedInOrder(zip: seq<ZipEntry>) {
    forall j | 0 <= j < |zip| :: zip[j].name == EntryName(j + 1)
  }

  /** The name is "file", the number in decimal, without leading zeros, and ".txt". */
  predicate IsNumbered(name: string, number: nat) {
    && |name| > 8 && name[..4] == "file" && name[|name| - 4..] == ".txt"
    && AllDigits(name[4..|name| - 4]) && name[4] != '0' && Weighted(name[4..|name| - 4]) == number
  }

  lemma NameIsNumbered(number: nat)
    requires number > 0
    ensures IsNumbered(EntryName(number), number)
  {
    var digits, name := Pad(number, 1), EntryName(number);
    PadThenValue(number, 1);
    NoLeadingZero(number);
    ValueIsDecimal(digits);
    assert name[4..|name| - 4] == digits && name[..4] == "file" && name[|name| - 4..] == ".txt";
    assert name[4] == digits[0];
  }

  lemma NamesAreNumbered(zip: seq<ZipEntry>)
    requires NamedInOrder(zip)
    ensures forall j | 0 <= j < |zip| :: IsNumbered(zip[j].name, j + 1)
  {
    forall j | 0 <= j < |zip| ensures IsNumbered(zip[j].name, j + 1) {
      NameIsNumbered(j + 1);
    }
  }

  /** Entries have names of their own. */
  lemma NamesAreDistinct(a: nat, b: nat)
    ensures EntryName(a) == EntryName(b) <==> a == b
  {
    PadThenValue(a, 1);
    PadThenValue(b, 1);
    var x, y := EntryName(a), EntryName(b);
    assert x[4..|x| - 4] == Pad(a, 1) && y[4..|y| - 4] == Pad(b, 1);
  }

  /** The zip's entries; none at all for a period without transactions. */
  method GetSplitFiles(items: seq<Item>, records: ControlRecords) returns (zip: seq<ZipEntry>, ghost ids: seq<nat>)
    requires SortedByFile(items)
    ensures NamedInOrder(zip) && forall j | 0 <= j < |zip| :: IsNumbered(zip[j].name, j + 1)
    ensures items == [] ==> zip == []
    ensures items != [] ==> IsSplit(records, items, items[0].file, ids, ZipLines(zip))
  {
    if items == [] {
      return [], [];
    }
    zip, ids := [], [items[0].file];
    var currentSplitFileId := 1;
    var currentInputFileId := items[0].file;
    var builder: seq<string> := [];
    ghost var seen: seq<Item>, chunks: seq<seq<string>> := [], [];
    SplitNothing(records, currentInputFileId);
    for k := 0 to |items|
      invariant seen == items[..k] && ZipLines(zip) == chunks
      invariant IsSplit(records, seen, items[0].file, ids, chunks + [builder])
      invariant NamedInOrder(zip) && currentSplitFileId == |zip| + 1
      invariant currentInputFileId == ids[|ids| - 1]
      invariant k < |items| ==> currentInputFileId <= items[k].file
    {
      var item := items[k];
      if Matched(records, item.client.code) {
        if item.file != currentInputFileId {
          SplitNewFile(records, seen, items[0].file, ids, chunks + [builder], item);
          OneMoreEntry(zip, ZipEntry(EntryName(currentSplitFileId), builder));
          zip := zip + [ZipEntry(EntryName(currentSplitFileId), builder)];
          chunks, ids := chunks + [builder], ids + [item.file];
          builder := [];
          currentInputFileId := item.file;
          currentSplitFileId := currentSplitFileId + 1;
        } else {
          SplitSameFile(records, seen, items[0].file, ids, chunks, builder, item);
        }
        builder := builder + [FormatControl(records[item.client.code], item.amount)];
      } else {
        SplitUnmatched(records, seen, items[0].file, ids, chunks + [builder], item);
      }
      seen := seen + [item];
    }
    assert seen == items;
    OneMoreEntry(zip, ZipEntry(EntryName(currentSplitFileId), builder));
    zip := zip + [ZipEntry(EntryName(currentSplitFileId), builder)];
    NamesAreNumbered(zip);
  }

  lemma OneMoreEntry(zip: seq<ZipEntry>, entry: ZipEntry)
    ensures ZipLines(zip + [entry]) == ZipLines(zip) + [entry.lines]
  {
  }

  lemma SplitNothing(records: ControlRecords, first: nat)
    ensures IsSplit(records, [], first, [first], [] + [[]])
  {
    var chunks: seq<seq<string>> := [] + [[]];
    assert chunks[..0] == [] && chunks[0] == [];
  }

  lemma {:induction false} ChunkAt(records: ControlRecords, items: seq<Item>, ids: seq<nat>,
                                   chunks: seq<seq<string>>, j: nat)
    requires ChunksOf(records, items, ids, chunks) && j < |chunks|
    ensures chunks[j] == FileLines(records, items, ids[j]) && (j > 0 ==> chunks[j] != [])
  {
    var n := |chunks| - 1;
    if j < n { ChunkAt(records, items, ids[..n], chunks[..n], j); }
  }

  /** Every entry holds the lines of one input file, and no input file is in two. Only the first entry
      can be empty, and it is exactly when the period's first input file matches nothing. */
  lemma EntriesAreInputFiles(records: ControlRecords, items: seq<Item>, ids: seq<nat>, chunks: seq<seq<string>>, j: nat)
    requires items != [] && IsSplit(records, items, items[0].file, ids, chunks) && j < |chunks|
    ensures chunks[j] == FileLines(records, items, ids[j])
    ensures forall i | 0 <= i < j :: ids[i] < ids[j]
    ensures chunks[j] == [] <==> j == 0 && !MatchedIn(records, items, items[0].file)
  {
    ChunkAt(records, items, ids, chunks, j);
    FileLinesNonEmpty(records, items, ids[j]);
    IncreasingPrefix(ids, j);
    BelowLast(ids[..j + 1]);
  }

  lemma {:induction false} IncreasingPrefix(ids: seq<nat>, j: nat)
    requires Increasing(ids) && j < |ids|
    ensures Increasing(ids[..j + 1])
  {
    if j + 1 < |ids| {
      IncreasingPrefix(ids[..|ids| - 1], j);
      assert ids[..|ids| - 1][..j + 1] == ids[..j + 1];
    } else {
      assert ids[..j + 1] == ids;
    }
  }

  /** The input files that get an entry: the first one, and each one with a matched transaction. */
  lemma SplitIdsMeaning(records: ControlRecords, items: seq<Item>, first: nat, ids: seq<nat>,
                        chunks: seq<seq<string>>, file: nat)
    requires IsSplit(records, items, first, ids, chunks)
    ensures file in ids <==> file == first || MatchedIn(records, items, file)
  {
    FileLinesNonEmpty(records, items, file);
    if j :| 0 <= j < |ids| && ids[j] == file {
      ChunkAt(records, items, ids, chunks, j);
    }
  }

  /** The split is determined by the period's transactions and the control records. */
  lemma SplitIsUnique(records: ControlRecords, items: seq<Item>, first: nat, ids: seq<nat>,
                      chunks: seq<seq<string>>, ids': seq<nat>, chunks': seq<seq<string>>)
    requires IsSplit(records, items, first, ids, chunks) && IsSplit(records, items, first, ids', chunks')
    ensures ids == ids' && chunks == chunks'
  {
    forall f: nat ensures f in ids <==> f in ids' {
      SplitIdsMeaning(records, items, first, ids, chunks, f);
      SplitIdsMeaning(records, items, first, ids', chunks', f);
    }
    IncreasingIsUnique(ids, ids');
    forall j | 0 <= j < |ids| ensures chunks[j] == chunks'[j] {
      ChunkAt(records, items, ids, chunks, j);
      ChunkAt(records, items, ids', chunks', j);
    }
  }

  lemma {:induction false} IncreasingIsUnique(a: seq<nat>, b: seq<nat>)
    requires Increasing(a) && Increasing(b) && forall f: nat :: f in a <==> f in b
    ensures a == b
  {
    if a != [] && b != [] {
      var x, y := a[|a| - 1], b[|b| - 1];
      BelowLast(a);
      BelowLast(b);
      assert x in b && y in a;
      assert x == y;
      var s, t := a[..|a| - 1], b[..|b| - 1];
      forall f: nat ensures f in s <==> f in t {
        assert f in s <==> f in a && f != x;
        assert f in t <==> f in b && f != y;
      }
      IncreasingPrefix(a, |a| - 1);
      IncreasingIsUnique(s, t);
      assert a == s + [x] && b == t + [y];
    } else {
      if a != [] { HasMember(a); }
      if b != [] { HasMember(b); }
    }
  }

  lemma HasMember(a: seq<nat>)
    requires a != []
    ensures exists f :: f in a
  {
    assert a[0] in a;
  }

  // ----- Conservation -----

  /** The amounts on the lines of a client, in order, read as control lines. */
  function AmountsOnLines(lines: seq<string>, code: string): seq<nat> {
    if lines == [] then []
    else
      var init, record := AmountsOnLines(lines[..|lines| - 1], code), ParseControl(lines[|lines| - 1]);
      if record.Some? && record.value.code == code then init + [record.value.controlAmount] else init
  }

  /** The amounts of a client's transactions, in order. */
  function AmountsOf(items: seq<Item>, code: string): seq<nat> {
    if items == [] then []
    else
      var init, item := AmountsOf(items[..|items| - 1], code), items[|items| - 1];
      if item.client.code == code then init + [item.amount] else init
  }

  function Sum(amounts: seq<nat>): nat {
    if amounts == [] then 0 else Sum(amounts[..|amounts| - 1]) + amounts[|amounts| - 1]
  }

  lemma {:induction false} SumIsTotal(items: seq<Item>, code: string)
    ensures Sum(AmountsOf(items, code)) == Total(items, code)
  {
    if items != [] {
      var n := |items| - 1;
      SumIsTotal(items[..n], code);
      if items[n].client.code == code {
        assert AmountsOf(items, code)[..|AmountsOf(items, code)| - 1] == AmountsOf(items[..n], code);
      }
    }
  }

  predicate AmountsFit(items: seq<Item>) {
    forall i | 0 <= i < |items| :: items[i].amount < AMOUNT_LIMIT
  }

  /** A matched client's lines are its transactions, amount for amount; no other client has lines. */
  lemma {:induction false} LinesAreTransactions(records: ControlRecords, items: seq<Item>, code: string)
    requires RecordsOk(records) && AmountsFit(items)
    ensures AmountsOnLines(MatchedLines(records, items), code)
         == if Matched(records, code) then AmountsOf(items, code) else []
  {
    if items != [] {
      var n := |items| - 1;
      var init, item := MatchedLines(records, items[..n]), items[n];
      LinesAreTransactions(records, items[..n], code);
      if Matched(records, item.client.code) {
        var line := FormatControl(records[item.client.code], item.amount);
        FormatThenParseControl(records[item.client.code], item.amount);
        assert (init + [line])[..|init|] == init;
      }
    }
  }

  /** The transactions of one input file, in order. */
  function OfFile(items: seq<Item>, file: nat): seq<Item> {
    if items == [] then []
    else
      var init, item := OfFile(items[..|items| - 1], file), items[|items| - 1];
      if item.file == file then init + [item] else init
  }

  /** An entry has, for each matched client, its transactions in the input file, and nothing for any other. */
  lemma {:induction false} EntryLinesAreTransactions(records: ControlRecords, items: seq<Item>, file: nat, code: string)
    requires RecordsOk(records) && AmountsFit(items)
    ensures AmountsOnLines(FileLines(records, items, file), code)
         == if Matched(records, code) then AmountsOf(OfFile(items, file), code) else []
  {
    if items != [] {
      var n := |items| - 1;
      var init, item := FileLines(records, items[..n], file), items[n];
      EntryLinesAreTransactions(records, items[..n], file, code);
      if item.file == file {
        assert OfFile(items, file)[..|OfFile(items, file)| - 1] == OfFile(items[..n], file);
        if Matched(records, item.client.code) {
          var line := FormatControl(records[item.client.code], item.amount);
          FormatThenParseControl(records[item.client.code], item.amount);
          assert (init + [line])[..|init|] == init;
        }
      }
    }
  }

  /** Each line is a control line with the code, name and other fields of a matched client's control line. */
  lemma {:induction false} LinesAreRecords(records: ControlRecords, items: seq<Item>, k: nat)
    requires RecordsOk(records) && AmountsFit(items) && k < |MatchedLines(records, items)|
    ensures var line := ParseControl(MatchedLines(records, items)[k]);
            && line.Some? && Matched(records, line.value.code)
            && line.value == records[line.value.code].(controlAmount := line.value.controlAmount,
                                                       transactionsAmount := None)
  {
    var n := |items| - 1;
    var init, item := MatchedLines(records, items[..n]), items[n];
    if k < |init| {
      LinesAreRecords(records, items[..n], k);
    } else {
      FormatThenParseControl(records[item.client.code], item.amount);
    }
  }

  /** Splitting conserves the amounts: the lines of a client that matches add up to its control amount,
      being its transactions in (file, transaction) order; any other client has no line. */
  lemma SplitConserves(records: ControlRecords, items: seq<Item>, first: nat, ids: seq<nat>,
                       chunks: seq<seq<string>>, code: string)
    requires RecordsOk(records) && AmountsFit(items)
    requires forall c | c in records :: records[c].transactionsAmount == PeriodAmount(items, c)
    requires IsSplit(records, items, first, ids, chunks)
    ensures Matched(records, code) <==> code in records && PeriodAmount(items, code) == ControlAmount(records, code)
    ensures Matched(records, code) ==>
              && AmountsOnLines(Concat(chunks), code) == AmountsOf(items, code)
              && Sum(AmountsOnLines(Concat(chunks), code)) == records[code].controlAmount
    ensures !Matched(records, code) ==> AmountsOnLines(Concat(chunks), code) == []
  {
    LinesAreTransactions(records, items, code);
    SumIsTotal(items, code);
  }
}
