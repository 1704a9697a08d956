/**
 * The listing half of hb_gpioinfo/gpioinfo.c: list_lines walks the lines of
 * one kernel GPIO chip, print_line_info adds the parsed pin of a line, and
 * main runs over all chips and decides the exit status.
 *
 * libgpiod is represented by what it reports (a chip name and the name of
 * each line), and the helpers of the tools' common code that are not part of
 * this model (resolve_lines_by_offset, resolve_done) are parameters.
 */
module GpioList {
  import opened Wrappers
  import opened GpioParse
  import opened LineResolve

  /** A GPIO chip as libgpiod reports it: its name and the name of the line at each offset. */
  datatype KernelChip = KernelChip(name: string, lineNames: seq<Option<string>>)

  /** The line at `offset`, as gpiod_chip_get_line_info reports it. */
  function LineAt(chip: KernelChip, offset: nat): KernelLine
    requires offset < |chip.lineNames|
  {
    KernelLine(offset, chip.lineNames[offset])
  }

  /** All lines of the chip in offset order. */
  function Lines(chip: KernelChip): (r: seq<KernelLine>)
    ensures |r| == |chip.lineNames|
    ensures forall i | 0 <= i < |r| :: r[i] == LineAt(chip, i)
  {
    seq(|chip.lineNames|, i requires 0 <= i < |chip.lineNames| => LineAt(chip, i))
  }

  /** The command-line options that list_lines and main consult. */
  datatype Config = Config(byName: bool, strict: bool, chipId: Option<string>)

  /**
   * One printed line: `<chip> <offset>` for a requested line, or a listing
   * row for the parsed record with index `record`, with the pin print_line_info adds.
   */
  datatype Row =
    | Requested(chip: string, offset: nat)
    | Listed(chip: string, offset: nat, record: nat, pin: Option<PinInfo>)

  datatype ExitStatus = ExitSuccess | ExitFailure

  // ---------------------------------------------------------------- pin lookup

  /** The index of the first pin, in file order, whose `node_num` is the offset. */
  function FirstPinIndex(pins: seq<PinInfo>, offset: int): (r: Option<nat>)
    ensures r.None? <==> forall k | 0 <= k < |pins| :: pins[k].nodeNum != offset
    ensures r.Some? ==> r.value < |pins| && pins[r.value].nodeNum == offset
    ensures r.Some? ==> forall k | 0 <= k < r.value :: pins[k].nodeNum != offset
    decreases |pins|
  {
    if pins == [] then None
    else if pins[0].nodeNum == offset then Some(0)
    else match FirstPinIndex(pins[1..], offset)
      case None => None
      case Some(i) => Some(i + 1)
  }

  /** The pin print_line_info shows for a line: at most one, none when no pin has this offset. */
  function PinShown(pins: seq<PinInfo>, offset: int): Option<PinInfo> {
    match FirstPinIndex(pins, offset)
    case None => None
    case Some(i) => if i < |pins| then Some(pins[i]) else None
  }

  /** The pin loop of print_line_info: it stops at the first pin whose `node_num` is the offset. */
  method ShownPin(chip: ChipData, offset: nat) returns (shown: Option<PinInfo>)
    ensures shown == PinShown(chip.pins, offset)
    ensures shown.Some? ==> shown.value in chip.pins && shown.value.nodeNum == offset
  {
    shown := None;
    var j := 0;
    while j < |chip.pins|
      invariant 0 <= j <= |chip.pins|
      invariant forall k | 0 <= k < j :: chip.pins[k].nodeNum != offset
    {
      if chip.pins[j].nodeNum == offset {
        shown := Some(chip.pins[j]);
        return;
      }
      j := j + 1;
    }
  }

  // ---------------------------------------------------------------- listing without requests

  /** Number of parsed records whose gpiochip name equals the kernel chip's name. */
  function RecordCount(table: seq<ChipData>, name: string): nat
    decreases |table|
  {
    if table == [] then 0
    else RecordCount(table[..|table| - 1], name) + (if table[|table| - 1].gpiochip == name then 1 else 0)
  }

  /** The rows printed for one offset: one per record of the chip, in table order. */
  function RecordRows(table: seq<ChipData>, name: string, offset: nat): seq<Row>
    decreases |table|
  {
    if table == [] then []
    else
      var i := |table| - 1;
      RecordRows(table[..i], name, offset)
        + (if table[i].gpiochip == name then [Listed(name, offset, i, PinShown(table[i].pins, offset))] else [])
  }

  /** The rows printed for the first `n` offsets of the chip when no line was requested. */
  function ListedRows(table: seq<ChipData>, chip: KernelChip, n: nat): seq<Row>
    decreases n
  {
    if n == 0 then [] else ListedRows(table, chip, n - 1) + RecordRows(table, chip.name, n - 1)
  }

  // ---------------------------------------------------------------- listing with requests

  /**
   * The offset loop of list_lines with requests, from offset `from`: it stops
   * once `done` holds of the requests or the chip has no more lines, and it
   * prints the offsets for which resolve_line answers true.  The result is the
   * requests afterwards and the rows printed.
   */
  function RequestPass(ls: seq<ResolvedLine>, chip: KernelChip, chipNum: nat, strict: bool,
                       done: seq<ResolvedLine> -> bool, from: nat): (seq<ResolvedLine>, seq<Row>)
    decreases |chip.lineNames| - from
  {
    if from >= |chip.lineNames| || done(ls) then (ls, [])
    else
      var line := LineAt(chip, from);
      var hit := exists i | 0 <= i < |ls| :: Hit(ls[i], line, chipNum, strict);
      var rest := RequestPass(VisitAll(ls, line, chipNum, strict), chip, chipNum, strict, done, from + 1);
      (rest.0, (if hit then [Requested(chip.name, from)] else []) + rest.1)
  }

  /** One offset of the requests pass: resolve_line sees the line, and the row is printed when it answers true. */
  lemma RequestPassStep(ls: seq<ResolvedLine>, chip: KernelChip, chipNum: nat, strict: bool,
                        done: seq<ResolvedLine> -> bool, from: nat, hit: bool)
    requires from < |chip.lineNames| && !done(ls)
    requires hit <==> exists i | 0 <= i < |ls| :: Hit(ls[i], LineAt(chip, from), chipNum, strict)
    ensures var rest := RequestPass(VisitAll(ls, LineAt(chip, from), chipNum, strict), chip, chipNum, strict, done, from + 1);
      RequestPass(ls, chip, chipNum, strict, done, from)
        == (rest.0, (if hit then [Requested(chip.name, from)] else []) + rest.1)
  {
  }

  /** The requests as list_lines starts on them: resolved by offset first on chip 0 when a chip was named. */
  function Start(ls: seq<ResolvedLine>, chip: KernelChip, chipNum: nat, cfg: Config,
                 byOffset: (seq<ResolvedLine>, nat) -> seq<ResolvedLine>): seq<ResolvedLine>
  {
    if chipNum == 0 && cfg.chipId.Some? && !cfg.byName then byOffset(ls, |chip.lineNames|) else ls
  }

  /** resolve_lines_by_offset works on the requests in place, so their number is unchanged. */
  ghost predicate KeepsCount(byOffset: (seq<ResolvedLine>, nat) -> seq<ResolvedLine>) {
    forall ls: seq<ResolvedLine>, n: nat :: |byOffset(ls, n)| == |ls|
  }

  /**
   * list_lines for one opened chip.  `table` is the parsed `gpio_data[0 ..
   * gpio_index)`.  With requests, the rows are those of RequestPass and
   * `num_found` is not touched; without, every offset prints one row per
   * record of the chip and counts each of them in `num_found`.
   */
  method ListLines(resolver: LineResolver, chip: KernelChip, chipNum: nat, cfg: Config, table: seq<ChipData>,
                   byOffset: (seq<ResolvedLine>, nat) -> seq<ResolvedLine>, done: seq<ResolvedLine> -> bool)
    returns (rows: seq<Row>)
    requires KeepsCount(byOffset)
    modifies resolver
    ensures |resolver.lines| == |old(resolver.lines)|
    ensures |old(resolver.lines)| > 0 ==>
      (resolver.lines, rows) == RequestPass(Start(old(resolver.lines), chip, chipNum, cfg, byOffset), chip, chipNum, resolver.strict, done, 0)
    ensures |old(resolver.lines)| > 0 ==> resolver.numFound == old(resolver.numFound)
    ensures |old(resolver.lines)| == 0 ==> rows == ListedRows(table, chip, |chip.lineNames|)
    ensures |old(resolver.lines)| == 0 ==>
      resolver.numFound == old(resolver.numFound) + |chip.lineNames| * RecordCount(table, chip.name)
  {
    if chipNum == 0 && cfg.chipId.Some? && !cfg.byName {
      resolver.lines := byOffset(resolver.lines, |chip.lineNames|);
    }
    ghost var start := resolver.lines;
    assert start == Start(old(resolver.lines), chip, chipNum, cfg, byOffset);
    ghost var final := RequestPass(start, chip, chipNum, resolver.strict, done, 0);
    ghost var found0 := resolver.numFound;
    var n := |chip.lineNames|;
    var c := RecordCount(table, chip.name);
    rows := [];
    var offset := 0;
    while offset < n && !(|resolver.lines| > 0 && done(resolver.lines))
      invariant 0 <= offset <= n
      invariant |resolver.lines| == |start|
      invariant |start| > 0 ==> resolver.numFound == found0
      invariant |start| > 0 ==>
        var p := RequestPass(resolver.lines, chip, chipNum, resolver.strict, done, offset);
        p.0 == final.0 && rows + p.1 == final.1
      invariant |start| == 0 ==> rows == ListedRows(table, chip, offset)
      invariant |start| == 0 ==> resolver.numFound == found0 + offset * c
    {
      ghost var before := resolver.lines;
      var more := ListOffset(resolver, chip, chipNum, table, offset);
      if |start| > 0 {
        ghost var hit := exists i | 0 <= i < |before| :: Hit(before[i], LineAt(chip, offset), chipNum, resolver.strict);
        RequestPassStep(before, chip, chipNum, resolver.strict, done, offset, hit);
        ghost var next := RequestPass(resolver.lines, chip, chipNum, resolver.strict, done, offset + 1);
        ConcatAssoc(rows, more, next.1);
      } else {
        assert (offset + 1) * c == offset * c + c;
      }
      rows := rows + more;
      offset := offset + 1;
    }
    if |start| > 0 {
      assert RequestPass(resolver.lines, chip, chipNum, resolver.strict, done, offset) == (resolver.lines, []);
      assert rows == final.1;
      assert (resolver.lines, rows) == final;
    }
  }

  /**
   * The body of list_lines' offset loop: with requests, resolve_line decides
   * whether the line is printed; without, the records of the chip are listed.
   */
  method ListOffset(resolver: LineResolver, chip: KernelChip, chipNum: nat, table: seq<ChipData>, offset: nat)
    returns (rows: seq<Row>)
    requires offset < |chip.lineNames|
    modifies resolver
    ensures |old(resolver.lines)| > 0 ==>
      && resolver.lines == VisitAll(old(resolver.lines), LineAt(chip, offset), chipNum, resolver.strict)
      && resolver.numFound == old(resolver.numFound)
      && rows == if exists i | 0 <= i < |old(resolver.lines)| :: Hit(old(resolver.lines)[i], LineAt(chip, offset), chipNum, resolver.strict)
                 then [Requested(chip.name, offset)] else []
    ensures |old(resolver.lines)| == 0 ==>
      && resolver.lines == old(resolver.lines)
      && rows == RecordRows(table, chip.name, offset)
      && resolver.numFound == old(resolver.numFound) + RecordCount(table, chip.name)
  {
    var info := LineAt(chip, offset);
    if |resolver.lines| > 0 {
      var resolved := resolver.ResolveLine(info, chipNum);
      if !resolved {
        return [];
      }
      rows := [Requested(chip.name, offset)];
    } else {
      rows := ListRecords(resolver, table, chip.name, offset);
    }
  }

  /**
   * The record loop of list_lines for one offset when no line was requested:
   * each record named like the chip prints a row with print_line_info's pin
   * and counts in `num_found`.
   */
  method ListRecords(resolver: LineResolver, table: seq<ChipData>, name: string, offset: nat) returns (rows: seq<Row>)
    modifies resolver
    ensures resolver.lines == old(resolver.lines)
    ensures rows == RecordRows(table, name, offset)
    ensures resolver.numFound == old(resolver.numFound) + RecordCount(table, name)
  {
    rows := [];
    var i := 0;
    while i < |table|
      invariant 0 <= i <= |table|
      invariant resolver.lines == old(resolver.lines)
      invariant rows == RecordRows(table[..i], name, offset)
      invariant resolver.numFound == old(resolver.numFound) + RecordCount(table[..i], name)
    {
      assert table[..i + 1][..i] == table[..i];
      if table[i].gpiochip == name {
        var shown := ShownPin(table[i], offset);
        rows := rows + [Listed(name, offset, i, shown)];
        resolver.numFound := resolver.numFound + 1;
      }
      i := i + 1;
    }
    assert table[..i] == table;
  }

  // ---------------------------------------------------------------- main

  /** Whether opening chip `i` failed. */
  ghost predicate OpenFailed(chips: seq<Option<KernelChip>>) {
    exists i | 0 <= i < |chips| :: chips[i].None?
  }

  /**
   * main after the debug dumps are parsed.  `chips` holds one entry per path
   * that chip_paths returned, None where gpiod_chip_open failed; `args` are
   * the line arguments left after the options.  validate_resolution is taken
   * to return.
   */
  method Run(cfg: Config, args: seq<string>, chips: seq<Option<KernelChip>>, table: seq<ChipData>,
             resolver: LineResolver, byOffset: (seq<ResolvedLine>, nat) -> seq<ResolvedLine>,
             done: seq<ResolvedLine> -> bool)
    returns (status: ExitStatus)
    requires KeepsCount(byOffset)
    modifies resolver
    ensures status == ExitSuccess <==>
      && !(cfg.chipId.Some? && |chips| == 0)
      && !OpenFailed(chips)
      && (|args| == 0 || resolver.numFound == |args|)
    ensures |old(resolver.lines)| > 0 ==> resolver.numFound == old(resolver.numFound)
  {
    var cfg := if cfg.chipId.None? then cfg.(byName := true) else cfg;
    if cfg.chipId.Some? && |chips| == 0 {
      return ExitFailure;
    }
    status := ExitSuccess;
    var i := 0;
    while i < |chips|
      invariant 0 <= i <= |chips|
      invariant |resolver.lines| == |old(resolver.lines)|
      invariant |old(resolver.lines)| > 0 ==> resolver.numFound == old(resolver.numFound)
      invariant status == ExitSuccess <==> forall k | 0 <= k < i :: chips[k].Some?
    {
      match chips[i] {
        case Some(chip) =>
          var _ := ListLines(resolver, chip, i, cfg, table, byOffset, done);
        case None =>
          if cfg.chipId.Some? {
            return ExitFailure;
          }
          status := ExitFailure;
      }
      i := i + 1;
    }
    if |args| > 0 && resolver.numFound != |args| {
      status := ExitFailure;
    }
  }

  // ---------------------------------------------------------------- lemmas

  lemma ConcatAssoc<T>(a: seq<T>, b: seq<T>, c: seq<T>)
    ensures a + (b + c) == (a + b) + c
  {
  }

  /** Every printed row is counted: the rows for one offset are exactly the records of the chip. */
  lemma {:induction false} RecordRowsCount(table: seq<ChipData>, name: string, offset: nat)
    ensures |RecordRows(table, name, offset)| == RecordCount(table, name)
    decreases |table|
  {
    if table != [] {
      RecordRowsCount(table[..|table| - 1], name, offset);
    }
  }

  /** Without requests, the rows printed for a chip number `num_found`'s increase. */
  lemma {:induction false} ListedRowsCount(table: seq<ChipData>, chip: KernelChip, n: nat)
    ensures |ListedRows(table, chip, n)| == n * RecordCount(table, chip.name)
    decreases n
  {
    if n > 0 {
      ListedRowsCount(table, chip, n - 1);
      RecordRowsCount(table, chip.name, n - 1);
      assert n * RecordCount(table, chip.name) == (n - 1) * RecordCount(table, chip.name) + RecordCount(table, chip.name);
    }
  }

  /** Chip lookup is by exact name: a chip no record is named after contributes nothing. */
  lemma {:induction false} NoRecordNoRows(table: seq<ChipData>, name: string, offset: nat)
    requires forall i | 0 <= i < |table| :: table[i].gpiochip != name
    ensures RecordRows(table, name, offset) == []
    ensures RecordCount(table, name) == 0
    decreases |table|
  {
    if table != [] {
      NoRecordNoRows(table[..|table| - 1], name, offset);
    }
  }

  /** Each listing row names the chip, a record of that name and the pin print_line_info finds in it. */
  lemma {:induction false} RecordRowsShape(table: seq<ChipData>, name: string, offset: nat)
    ensures forall r | r in RecordRows(table, name, offset) ::
      && r.Listed? && r.chip == name && r.offset == offset && r.record < |table|
      && table[r.record].gpiochip == name && r.pin == PinShown(table[r.record].pins, offset)
    decreases |table|
  {
    if table != [] {
      RecordRowsShape(table[..|table| - 1], name, offset);
    }
  }

  /**
   * When `done` never holds, the requests pass sees every line of the chip,
   * so each request ends where resolve_line's sweep over the chip leaves it.
   */
  lemma {:induction false} RequestPassSweeps(ls: seq<ResolvedLine>, chip: KernelChip, chipNum: nat, strict: bool,
                                             done: seq<ResolvedLine> -> bool, from: nat)
    requires from <= |chip.lineNames|
    requires forall s: seq<ResolvedLine> :: !done(s)
    ensures RequestPass(ls, chip, chipNum, strict, done, from).0 == SweepAll(ls, Lines(chip)[from..], chipNum, strict)
    decreases |chip.lineNames| - from
  {
    var tail := Lines(chip)[from..];
    if from == |chip.lineNames| {
      assert tail == [];
    } else {
      assert tail[0] == LineAt(chip, from);
      assert tail[1..] == Lines(chip)[from + 1..];
      RequestPassSweeps(VisitAll(ls, LineAt(chip, from), chipNum, strict), chip, chipNum, strict, done, from + 1);
    }
  }

  /** With requests, the pass prints only offsets that resolve_line reports, in increasing order. */
  lemma {:induction false} RequestRowsReported(ls: seq<ResolvedLine>, chip: KernelChip, chipNum: nat, strict: bool,
                                               done: seq<ResolvedLine> -> bool, from: nat)
    ensures forall r | r in RequestPass(ls, chip, chipNum, strict, done, from).1 ::
      r.Requested? && r.chip == chip.name && from <= r.offset < |chip.lineNames|
    decreases |chip.lineNames| - from
  {
    if from < |chip.lineNames| && !done(ls) {
      RequestRowsReported(VisitAll(ls, LineAt(chip, from), chipNum, strict), chip, chipNum, strict, done, from + 1);
    }
  }
}
