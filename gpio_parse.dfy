/**
 * parse_file of hb_gpioinfo/gpioinfo.c: one debug dump of the gpio_debug
 * driver is read line by line into the next free slot of the global
 * `gpio_data` table.  The first line is a header
 *   `<chip>: GPIOs <a>-<b>, parent: <parent>`
 * and every later line of the form `PinNode: <node> PinName: <name>` adds a pin.
 */
module GpioParse {
  import opened Wrappers
  import opened Scanf

  /** Size of the line buffer handed to fgets and of every text field. */
  const BufferSize: nat := 256
  /** Number of slots in the global `gpio_data` table. */
  const MaxGpios: nat := 100
  /** Number of pin slots in one `GPIOChipData` record. */
  const MaxPinsPerGpio: nat := 100

  /**
   * One pin record.  `pinNum` is None where the C code adds `nodeNum` to a
   * variable that was never assigned (the header held no `GPIOs <n>`), so its
   * value is indeterminate.
   */
  datatype PinInfo = PinInfo(node: string, pinName: string, pinNum: Option<int>, nodeNum: int)

  /** One record of `gpio_data`; the pin count is `|pins|`. */
  datatype ChipData = ChipData(gpiochip: string, gpios: string, parent: string, pins: seq<PinInfo>)

  /** A slot of the zero-initialised global table that nothing has written yet. */
  const EmptyChip := ChipData("", "", "", [])

  // ---------------------------------------------------------------- fgets

  /** The piece has no newline before its last character. */
  predicate NewlineFree(piece: string) {
    forall j | 0 <= j < |piece| - 1 :: piece[j] != '\n'
  }

  /** The piece ends where fgets stops reading: after a newline, or with the buffer full. */
  predicate EndsRead(piece: string) {
    |piece| > 0 && (piece[|piece| - 1] == '\n' || |piece| == BufferSize - 1)
  }

  /** The pieces written one after the other. */
  function Concat(pieces: seq<string>): string
    decreases |pieces|
  {
    if pieces == [] then [] else pieces[0] + Concat(pieces[1..])
  }

  /**
   * Length of the piece that one `fgets(buffer, 256, file)` returns: up to
   * and including the first newline, at most 255 characters, and the rest of
   * the file when that comes first.
   */
  function ChunkLen(text: string): (n: nat)
    requires text != []
    ensures 0 < n <= |text| && n < BufferSize
    ensures NewlineFree(text[..n])
    ensures EndsRead(text[..n]) || n == |text|
  {
    var e := ExcludingEnd(text, 0, '\n');
    ExcludingEndStops(text, 0, '\n');
    var withNewline := if e < |text| then e + 1 else e;
    if withNewline < BufferSize - 1 then withNewline else BufferSize - 1
  }

  /**
   * The successive pieces that repeated fgets calls return for a file: they
   * make up the whole text, and every piece but the last ends a read.
   */
  function Chunks(text: string): (lines: seq<string>)
    ensures Concat(lines) == text
    ensures forall k | 0 <= k < |lines| :: 0 < |lines[k]| < BufferSize && NewlineFree(lines[k])
    ensures forall k | 0 <= k < |lines| - 1 :: EndsRead(lines[k])
    ensures text == [] <==> lines == []
    decreases |text|
  {
    if text == [] then []
    else
      var n := ChunkLen(text);
      var rest := Chunks(text[n..]);
      assert ([text[..n]] + rest)[1..] == rest;
      assert text[..n] + text[n..] == text;
      [text[..n]] + rest
  }

  // ---------------------------------------------------------------- header

  /** The three fields the header sscanf stores; a field it does not reach stays empty. */
  datatype Header = Header(gpiochip: string, gpios: string, parent: string)

  /** `sscanf(buffer, "%[^:]: %[^,], parent: %s", gpiochip, gpios, parent)`. */
  function ScanHeader(line: string): Header
  {
    match Excluding(line, 0, ':')
    case None => Header("", "", "")
    case Some((chip, i)) =>
      match Literal(line, i, ':')
      case None => Header(chip, "", "")
      case Some(i1) =>
        match Excluding(line, SkipSpace(line, i1), ',')
        case None => Header(chip, "", "")
        case Some((gpios, i2)) => Header(chip, gpios, ScanParent(line, i2))
  }

  /** The `, parent: %s` tail of the header format, from position i. */
  function ScanParent(line: string, i: nat): string
    requires i <= |line|
  {
    match Literal(line, i, ',')
    case None => ""
    case Some(i1) =>
      match Literals(line, SkipSpace(line, i1), "parent:")
      case None => ""
      case Some(i2) =>
        match Word(line, i2)
        case None => ""
        case Some((parent, _)) => parent
  }

  /** `sscanf(gpios, "GPIOs %d-", &initial_gpio)`: None leaves `initial_gpio` unassigned. */
  function ScanBase(gpios: string): Option<int>
  {
    match Literals(gpios, 0, "GPIOs")
    case None => None
    case Some(i) =>
      match Decimal(gpios, SkipSpace(gpios, i))
      case None => None
      case Some((v, _)) => Some(v)
  }

  // ---------------------------------------------------------------- pin lines

  /** The `PinNode: %s` prefix: the node token, and where the scan stands after it. */
  function ScanNode(line: string): Option<(string, nat)>
  {
    match Literals(line, 0, "PinNode:")
    case None => None
    case Some(i) => Word(line, i)
  }

  /**
   * `sscanf(buffer, "PinNode: %s PinName: %s", node, pin_name) == 2`:
   * the node and the name when both conversions succeed.
   */
  function ScanPinLine(line: string): Option<(string, string)>
  {
    match ScanNode(line)
    case None => None
    case Some((node, j)) =>
      match Literals(line, SkipSpace(line, j), "PinName:")
      case None => None
      case Some(k) =>
        match Word(line, k)
        case None => None
        case Some((name, _)) => Some((node, name))
  }

  /**
   * Whether the sscanf of a pin line writes into the pin slot at `pin_count`
   * at all: the node conversion succeeds even where the name does not.
   */
  predicate TouchesSlot(line: string) {
    ScanNode(line).Some?
  }

  /** One `%*[^_]_` of the node format: a non-empty field without `_`, then `_`. */
  function SkipField(node: string, i: nat): (r: Option<nat>)
    requires i <= |node|
    ensures r.Some? ==> r.value <= |node|
  {
    match Excluding(node, i, '_')
    case None => None
    case Some((_, j)) => Literal(node, j, '_')
  }

  /** `sscanf(node, "%*[^_]_%*[^_]_%d", &node_num)`: the integer after the second `_`-delimited field. */
  function ScanNodeNum(node: string): Option<int>
  {
    match SkipField(node, 0)
    case None => None
    case Some(i) =>
      match SkipField(node, i)
      case None => None
      case Some(j) =>
        match Decimal(node, j)
        case None => None
        case Some((v, _)) => Some(v)
  }

  /**
   * The `node_num` a pin ends up with: the scanned integer, or 0 when the scan
   * fails, since the slot's field is still zero from the global initialiser.
   */
  function NodeNum(node: string): int {
    ScanNodeNum(node).GetOr(0)
  }

  /** The pin a matching line appends, `pin_num = initial_gpio + node_num`. */
  function MakePin(node: string, name: string, base: Option<int>): PinInfo {
    var n := NodeNum(node);
    PinInfo(node, name, if base.Some? then Some(base.value + n) else None, n)
  }

  /** The pin a line contributes: none for a line that does not match, exactly one for a line that does. */
  function PinOfLine(line: string, base: Option<int>): seq<PinInfo>
  {
    match ScanPinLine(line)
    case None => []
    case Some((node, name)) => [MakePin(node, name, base)]
  }

  /** The pins that the `while (fgets …)` loop appends for the given lines, in order. */
  function PinsOf(lines: seq<string>, base: Option<int>): seq<PinInfo>
    decreases |lines|
  {
    if lines == [] then []
    else PinsOf(lines[..|lines| - 1], base) + PinOfLine(lines[|lines| - 1], base)
  }

  /** Number of lines that match the pin format. */
  function MatchCount(lines: seq<string>): nat
    decreases |lines|
  {
    if lines == [] then 0
    else MatchCount(lines[..|lines| - 1]) + (if ScanPinLine(lines[|lines| - 1]).Some? then 1 else 0)
  }

  /** What parse_file stores for a file that opens, with contents `text`. */
  function ParseDump(text: string): ChipData
  {
    var lines := Chunks(text);
    if lines == [] then EmptyChip
    else
      var h := ScanHeader(lines[0]);
      ChipData(h.gpiochip, h.gpios, h.parent, PinsOf(lines[1..], ScanBase(h.gpios)))
  }

  /**
   * The unchecked `pins[MAX_PINS_PER_GPIO]` bound: no line after the header
   * writes into the pin slot once 100 pins have been stored.
   */
  predicate PinCapRespected(lines: seq<string>) {
    forall k | 1 <= k < |lines| :: TouchesSlot(lines[k]) ==> MatchCount(lines[1..k]) < MaxPinsPerGpio
  }

  // ---------------------------------------------------------------- the table

  /** The global `gpio_data` table and its fill level `gpio_index`. */
  class DebugTable {
    var gpioData: array<ChipData>
    var gpioIndex: nat

    ghost predicate Valid()
      reads this, gpioData
    {
      && gpioData.Length == MaxGpios
      && gpioIndex <= MaxGpios
      && forall i | gpioIndex <= i < MaxGpios :: gpioData[i] == EmptyChip
    }

    /** The records parsed so far, `gpio_data[0 .. gpio_index)`. */
    function Chips(): seq<ChipData>
      reads this, gpioData
      requires Valid()
    {
      gpioData[..gpioIndex]
    }

    constructor ()
      ensures Valid() && fresh(gpioData)
      ensures gpioIndex == 0 && Chips() == []
    {
      gpioData := new ChipData[MaxGpios](_ => EmptyChip);
      gpioIndex := 0;
    }

    /**
     * parse_file.  `file` is None when fopen fails: nothing is recorded.  A
     * file that opens fills the next slot and advances `gpioIndex` by one.
     */
    method ParseFile(file: Option<string>)
      requires Valid()
      requires file.Some? ==> gpioIndex < MaxGpios && PinCapRespected(Chunks(file.value))
      modifies this, gpioData
      ensures Valid() && gpioData == old(gpioData)
      ensures file.None? ==> gpioIndex == old(gpioIndex) && Chips() == old(Chips())
      ensures file.Some? ==> gpioIndex == old(gpioIndex) + 1
      ensures file.Some? ==> Chips() == old(Chips()) + [ParseDump(file.value)]
    {
      if file.None? {
        return;
      }
      var idx := gpioIndex;
      var chip := ReadDump(file.value);
      gpioData[idx] := chip;
      gpioIndex := gpioIndex + 1;
      assert gpioData[..gpioIndex] == old(gpioData[..idx]) + [chip];
    }
  }

  /**
   * The reading half of parse_file: the header line, then every further
   * line, collected into the record that is stored once complete.
   */
  method ReadDump(text: string) returns (chip: ChipData)
    requires PinCapRespected(Chunks(text))
    ensures chip == ParseDump(text)
  {
    var lines := Chunks(text);
    chip := EmptyChip;
    if lines != [] {
      var h := ScanHeader(lines[0]);
      var base := ScanBase(h.gpios);
      var pins: seq<PinInfo> := [];
      var k := 1;
      while k < |lines|
        invariant 1 <= k <= |lines|
        invariant pins == PinsOf(lines[1..k], base)
      {
        PinsOfNext(lines, k, base);
        PinCount(lines[1..k], base);
        pins := ScanPinInto(pins, lines[k], base);
        k := k + 1;
      }
      assert lines[1..k] == lines[1..];
      chip := ChipData(h.gpiochip, h.gpios, h.parent, pins);
    }
  }

  /**
   * One pass of the `while (fgets …)` loop body: a line with both tokens
   * fills `pins[pin_count]` and advances the count.  The slot is touched as
   * soon as the node token is read, so the record must still have room then.
   */
  method ScanPinInto(pins: seq<PinInfo>, line: string, base: Option<int>) returns (pins': seq<PinInfo>)
    requires TouchesSlot(line) ==> |pins| < MaxPinsPerGpio
    ensures pins' == pins + PinOfLine(line, base)
  {
    pins' := pins;
    match ScanPinLine(line) {
      case Some((node, name)) =>
        PinOfMatch(line, node, name, base);
        pins' := pins + [MakePin(node, name, base)];
      case None =>
        PinOfMiss(line, base);
    }
  }

  // ---------------------------------------------------------------- lemmas

  /** One more line after the header: the loop's step. */
  lemma PinsOfNext(lines: seq<string>, k: nat, base: Option<int>)
    requires 1 <= k < |lines|
    ensures PinsOf(lines[1..k + 1], base) == PinsOf(lines[1..k], base) + PinOfLine(lines[k], base)
  {
    assert lines[1..k + 1][..k - 1] == lines[1..k];
  }

  /** A line that matches the pin format contributes the pin built from its two tokens. */
  lemma PinOfMatch(line: string, node: string, name: string, base: Option<int>)
    requires ScanPinLine(line) == Some((node, name))
    ensures PinOfLine(line, base) == [MakePin(node, name, base)]
  {
  }

  /** A line that does not match contributes no pin. */
  lemma PinOfMiss(line: string, base: Option<int>)
    requires ScanPinLine(line).None?
    ensures PinOfLine(line, base) == []
  {
  }

  /** Each matching line adds exactly one pin: the pin count is the number of matching lines. */
  lemma {:induction false} PinCount(lines: seq<string>, base: Option<int>)
    ensures |PinsOf(lines, base)| == MatchCount(lines)
    decreases |lines|
  {
    if lines != [] {
      PinCount(lines[..|lines| - 1], base);
    }
  }

  /** Splitting the lines splits the pins: pins keep file order and earlier entries are untouched. */
  lemma {:induction false} PinsOfConcat(a: seq<string>, b: seq<string>, base: Option<int>)
    ensures PinsOf(a + b, base) == PinsOf(a, base) + PinsOf(b, base)
    decreases |b|
  {
    if b == [] {
      assert a + b == a;
    } else {
      var b' := b[..|b| - 1];
      assert (a + b)[..|a + b| - 1] == a + b';
      assert (a + b)[|a + b| - 1] == b[|b| - 1];
      PinsOfConcat(a, b', base);
    }
  }

  /**
   * The effect of one line wherever it stands: what `PinOfLine` says that line
   * contributes, in its place in file order, with the pins of the other lines unchanged.
   */
  lemma PinLineEffect(before: seq<string>, line: string, after: seq<string>, base: Option<int>)
    ensures PinsOf(before + [line] + after, base) == PinsOf(before, base) + PinOfLine(line, base) + PinsOf(after, base)
  {
    PinsOfConcat(before + [line], after, base);
    PinsOfConcat(before, [line], base);
    assert [line][..0] == [];
  }

  /**
   * Every stored pin has `node_num` scanned from its node token, and
   * `pin_num == initial_gpio + node_num`, or an indeterminate value when the
   * header gave no `initial_gpio`.
   */
  lemma {:induction false} PinsOfNumbers(lines: seq<string>, base: Option<int>)
    ensures BaseOffsetRule(PinsOf(lines, base), base)
    decreases |lines|
  {
    if lines != [] {
      PinsOfNumbers(lines[..|lines| - 1], base);
      PinOfLineNumbers(lines[|lines| - 1], base);
    }
  }

  /**
   * Every stored pin has `node_num` scanned from its node token and
   * `pin_num = initial_gpio + node_num`, the latter unknown when the range
   * text gave no base.
   */
  predicate BaseOffsetRule(pins: seq<PinInfo>, base: Option<int>) {
    forall p | p in pins ::
      && p.nodeNum == NodeNum(p.node)
      && p.pinNum == (if base.Some? then Some(base.value + p.nodeNum) else None)
  }

  /** The base-offset rule for the pin of a single line. */
  lemma PinOfLineNumbers(line: string, base: Option<int>)
    ensures BaseOffsetRule(PinOfLine(line, base), base)
  {
    match ScanPinLine(line)
    case None =>
    case Some((node, name)) =>
      var p := MakePin(node, name, base);
      assert PinOfLine(line, base) == [p];
      assert p.nodeNum == NodeNum(node) && p.node == node;
  }

  /** The base-offset rule for a whole dump, with the base scanned from the header's range text. */
  lemma DumpPinNumbers(text: string)
    ensures BaseOffsetRule(ParseDump(text).pins, ScanBase(ParseDump(text).gpios))
  {
    var lines := Chunks(text);
    if lines != [] {
      var h := ScanHeader(lines[0]);
      PinsOfNumbers(lines[1..], ScanBase(h.gpios));
      assert ParseDump(text) == ChipData(h.gpiochip, h.gpios, h.parent, PinsOf(lines[1..], ScanBase(h.gpios)));
    }
  }

  /**
   * `node_num` is the integer after the second `_`: for a node
   * `<a>_<b>_<digits><rest>` with `a`, `b` non-empty and free of `_`, it is
   * the value of `digits`.
   */
  lemma NodeNumOfFields(a: string, b: string, ds: string, rest: string)
    requires a != [] && b != [] && '_' !in a && '_' !in b
    requires ds != [] && AllDigits(ds)
    requires rest == [] || !IsDigit(rest[0])
    ensures NodeNum(a + "_" + b + "_" + ds + rest) == DecimalValue(ds)
  {
    var node := a + "_" + b + "_" + ds + rest;
    var i := |a| + 1;
    var j := |a| + 1 + |b| + 1;
    assert node[0..i - 1] == a && node[i - 1] == '_';
    assert node[i..j - 1] == b && node[j - 1] == '_';
    assert node[j..j + |ds|] == ds;
    assert j + |ds| == |node| || node[j + |ds|] == rest[0];
    NodeNumAt(node, a, b, ds);
  }

  /** The same, with the fields given by position in the node token. */
  lemma NodeNumAt(node: string, a: string, b: string, ds: string)
    requires a != [] && b != [] && '_' !in a && '_' !in b && ds != [] && AllDigits(ds)
    requires |a| + |b| + 2 + |ds| <= |node|
    requires node[0..|a|] == a && node[|a|] == '_'
    requires node[|a| + 1..|a| + 1 + |b|] == b && node[|a| + 1 + |b|] == '_'
    requires node[|a| + |b| + 2..|a| + |b| + 2 + |ds|] == ds
    requires |a| + |b| + 2 + |ds| == |node| || !IsDigit(node[|a| + |b| + 2 + |ds|])
    ensures NodeNum(node) == DecimalValue(ds)
  {
    TwoFieldsSkipped(node, a, b);
    NodeNumAfterFields(node, |a| + 1, |a| + |b| + 2, ds);
  }

  /** Once both fields are skipped, the digits at `j` are the node number. */
  lemma NodeNumAfterFields(node: string, i: nat, j: nat, ds: string)
    requires i <= j && j + |ds| <= |node|
    requires SkipField(node, 0) == Some(i) && SkipField(node, i) == Some(j)
    requires ds != [] && AllDigits(ds) && node[j..j + |ds|] == ds
    requires j + |ds| == |node| || !IsDigit(node[j + |ds|])
    ensures NodeNum(node) == DecimalValue(ds)
  {
    var v, e := DecimalValue(ds), j + |ds|;
    DecimalOfDigits(node, j, ds);
    assert Decimal(node, j) == Some((v, e));
    NodeNumFromSteps(node, i, j, v, e);
  }

  lemma TwoFieldsSkipped(node: string, a: string, b: string)
    requires a != [] && b != [] && '_' !in a && '_' !in b
    requires |a| + |b| + 2 <= |node|
    requires node[0..|a|] == a && node[|a|] == '_'
    requires node[|a| + 1..|a| + 1 + |b|] == b && node[|a| + 1 + |b|] == '_'
    ensures SkipField(node, 0) == Some(|a| + 1)
    ensures SkipField(node, |a| + 1) == Some(|a| + |b| + 2)
  {
    SkipFieldOf(node, 0, a);
    SkipFieldOf(node, |a| + 1, b);
  }

  lemma NodeNumFromSteps(node: string, i: nat, j: nat, v: int, e: nat)
    requires i <= j <= |node|
    requires SkipField(node, 0) == Some(i) && SkipField(node, i) == Some(j)
    requires Decimal(node, j) == Some((v, e))
    ensures NodeNum(node) == v
  {
  }

  lemma SkipFieldOf(node: string, i: nat, field: string)
    requires i + |field| < |node| && node[i..i + |field|] == field && node[i + |field|] == '_'
    requires field != [] && '_' !in field
    ensures SkipField(node, i) == Some(i + |field| + 1)
  {
    ExcludingToken(node, i, field, '_');
  }

  /**
   * The lines that match the pin format: `PinNode: <node> PinName: <name>`
   * with both tokens free of white space, followed by white space or nothing.
   */
  lemma PinLineOf(node: string, name: string, rest: string)
    requires node != [] && NoSpace(node) && name != [] && NoSpace(name)
    requires rest == [] || IsSpace(rest[0])
    ensures ScanPinLine("PinNode: " + node + " PinName: " + name + rest) == Some((node, name))
  {
    PinLineLayout(node, name, rest);
    PinLineAt("PinNode: " + node + " PinName: " + name + rest, node, name);
  }

  /** The same, with the tokens given by position in the line. */
  lemma PinLineAt(line: string, node: string, name: string)
    requires node != [] && NoSpace(node) && name != [] && NoSpace(name)
    requires var j := 9 + |node|;
      && j + 10 + |name| <= |line|
      && line[0..8] == "PinNode:" && line[8] == ' ' && line[9..j] == node
      && line[j] == ' ' && line[j + 1..j + 9] == "PinName:" && line[j + 9] == ' '
      && line[j + 10..j + 10 + |name|] == name
      && (j + 10 + |name| == |line| || IsSpace(line[j + 10 + |name|]))
    ensures ScanPinLine(line) == Some((node, name))
  {
    var j := 9 + |node|;
    PinNameTail(line, j, name);
    WordAfterSpace(line, 8, node);
    PinLineFromSteps(line, node, j, name, j + 10 + |name|);
  }

  /** Where the literals and the two tokens of a well-formed pin line sit. */
  lemma PinLineLayout(node: string, name: string, rest: string)
    requires rest == [] || IsSpace(rest[0])
    ensures var line := "PinNode: " + node + " PinName: " + name + rest;
      var j := 9 + |node|;
      && j + 10 + |name| <= |line|
      && line[0..8] == "PinNode:" && line[8] == ' ' && line[9..j] == node
      && line[j] == ' ' && line[j + 1..j + 9] == "PinName:" && line[j + 9] == ' '
      && line[j + 10..j + 10 + |name|] == name
      && (j + 10 + |name| == |line| || IsSpace(line[j + 10 + |name|]))
  {
    var line := "PinNode: " + node + " PinName: " + name + rest;
    var j := 9 + |node|;
    assert line[0..8] == "PinNode:";
    assert line[8] == ' ' && line[9..j] == node;
    assert line[j..j + 10] == " PinName: ";
    assert line[j + 10..j + 10 + |name|] == name;
    assert j + 10 + |name| == |line| || line[j + 10 + |name|] == rest[0];
  }

  /** `ScanPinLine` put together from its four directives. */
  lemma PinLineFromSteps(line: string, node: string, j: nat, name: string, e: nat)
    requires Literals(line, 0, "PinNode:") == Some(8) && Word(line, 8) == Some((node, j))
    requires Literals(line, SkipSpace(line, j), "PinName:") == Some(j + 9)
    requires Word(line, j + 9) == Some((name, e))
    ensures ScanPinLine(line) == Some((node, name))
  {
  }

  lemma PinNameTail(line: string, j: nat, name: string)
    requires j + 10 + |name| <= |line| && line[j] == ' ' && line[j + 1..j + 9] == "PinName:"
    requires line[j + 9] == ' ' && line[j + 10..j + 10 + |name|] == name
    requires name != [] && NoSpace(name)
    requires j + 10 + |name| == |line| || IsSpace(line[j + 10 + |name|])
    ensures Literals(line, SkipSpace(line, j), "PinName:") == Some(j + 9)
    ensures Word(line, j + 9) == Some((name, j + 10 + |name|))
  {
    assert line[j + 1] == 'P';
    SkipSpaceRun(line, j, 1);
    WordAfterSpace(line, j + 9, name);
  }

  /**
   * A well-formed header `<chip>: <gpios>, parent: <parent>` yields its three
   * fields; `parent` is a `%s` token and so keeps anything up to white space.
   */
  lemma HeaderOf(chip: string, gpios: string, parent: string, rest: string)
    requires chip != [] && ':' !in chip
    requires gpios != [] && ',' !in gpios && !IsSpace(gpios[0])
    requires parent != [] && NoSpace(parent)
    requires rest == [] || IsSpace(rest[0])
    ensures ScanHeader(chip + ": " + gpios + ", parent: " + parent + rest) == Header(chip, gpios, parent)
  {
    HeaderLayout(chip, gpios, parent, rest);
    HeaderAt(chip + ": " + gpios + ", parent: " + parent + rest, chip, gpios, parent);
  }

  /** The same, with the fields given by position in the line. */
  lemma HeaderAt(line: string, chip: string, gpios: string, parent: string)
    requires chip != [] && ':' !in chip
    requires gpios != [] && ',' !in gpios && !IsSpace(gpios[0])
    requires parent != [] && NoSpace(parent)
    requires var t := |chip| + 2 + |gpios|;
      && t + 10 + |parent| <= |line|
      && line[0..|chip|] == chip && line[|chip|] == ':' && line[|chip| + 1] == ' '
      && line[|chip| + 2..t] == gpios && line[t] == ',' && line[t + 1] == ' '
      && line[t + 2..t + 9] == "parent:" && line[t + 9] == ' '
      && line[t + 10..t + 10 + |parent|] == parent
      && (t + 10 + |parent| == |line| || IsSpace(line[t + 10 + |parent|]))
    ensures ScanHeader(line) == Header(chip, gpios, parent)
  {
    var t := |chip| + 2 + |gpios|;
    ParentTail(line, t, parent);
    ChipAndRange(line, chip, gpios);
    HeaderFromSteps(line, chip, gpios, t);
  }

  /** Where the fields and literals of a well-formed header sit. */
  lemma HeaderLayout(chip: string, gpios: string, parent: string, rest: string)
    requires rest == [] || IsSpace(rest[0])
    ensures var line := chip + ": " + gpios + ", parent: " + parent + rest;
      var t := |chip| + 2 + |gpios|;
      && t + 10 + |parent| <= |line|
      && line[0..|chip|] == chip && line[|chip|] == ':' && line[|chip| + 1] == ' '
      && line[|chip| + 2..t] == gpios && line[t] == ',' && line[t + 1] == ' '
      && line[t + 2..t + 9] == "parent:" && line[t + 9] == ' '
      && line[t + 10..t + 10 + |parent|] == parent
      && (t + 10 + |parent| == |line| || IsSpace(line[t + 10 + |parent|]))
  {
    var line := chip + ": " + gpios + ", parent: " + parent + rest;
    var t := |chip| + 2 + |gpios|;
    assert line[0..|chip|] == chip && line[|chip|..|chip| + 2] == ": ";
    assert line[|chip| + 2..t] == gpios && line[t..t + 10] == ", parent: ";
    assert line[t + 10..t + 10 + |parent|] == parent;
    assert t + 10 + |parent| == |line| || line[t + 10 + |parent|] == rest[0];
  }

  /** `ScanHeader` put together from its directives. */
  lemma HeaderFromSteps(line: string, chip: string, gpios: string, t: nat)
    requires Excluding(line, 0, ':') == Some((chip, |chip|)) && Literal(line, |chip|, ':') == Some(|chip| + 1)
    requires Excluding(line, SkipSpace(line, |chip| + 1), ',') == Some((gpios, t))
    ensures ScanHeader(line) == Header(chip, gpios, ScanParent(line, t))
  {
  }

  lemma ChipAndRange(line: string, chip: string, gpios: string)
    requires chip != [] && ':' !in chip && gpios != [] && ',' !in gpios && !IsSpace(gpios[0])
    requires |chip| + 2 + |gpios| < |line|
    requires line[0..|chip|] == chip && line[|chip|] == ':' && line[|chip| + 1] == ' '
    requires line[|chip| + 2..|chip| + 2 + |gpios|] == gpios && line[|chip| + 2 + |gpios|] == ','
    ensures Excluding(line, 0, ':') == Some((chip, |chip|))
    ensures Literal(line, |chip|, ':') == Some(|chip| + 1)
    ensures Excluding(line, SkipSpace(line, |chip| + 1), ',') == Some((gpios, |chip| + 2 + |gpios|))
  {
    ExcludingToken(line, 0, chip, ':');
    RangeField(line, |chip| + 1, gpios);
  }

  lemma RangeField(line: string, i: nat, gpios: string)
    requires gpios != [] && ',' !in gpios && !IsSpace(gpios[0])
    requires i + 1 + |gpios| < |line| && line[i] == ' '
    requires line[i + 1..i + 1 + |gpios|] == gpios && line[i + 1 + |gpios|] == ','
    ensures Excluding(line, SkipSpace(line, i), ',') == Some((gpios, i + 1 + |gpios|))
  {
    assert line[i + 1] == gpios[0];
    SkipSpaceRun(line, i, 1);
    ExcludingToken(line, i + 1, gpios, ',');
  }

  lemma ParentTail(line: string, t: nat, parent: string)
    requires t + 10 + |parent| <= |line| && line[t] == ',' && line[t + 1] == ' '
    requires line[t + 2..t + 9] == "parent:" && line[t + 9] == ' '
    requires line[t + 10..t + 10 + |parent|] == parent && parent != [] && NoSpace(parent)
    requires t + 10 + |parent| == |line| || IsSpace(line[t + 10 + |parent|])
    ensures ScanParent(line, t) == parent
  {
    assert line[t + 2] == 'p';
    SkipSpaceRun(line, t + 1, 1);
    WordAfterSpace(line, t + 9, parent);
  }

  /** The base offset is the unsigned number right after `GPIOs `, ended by any non-digit such as `-`. */
  lemma ScanBaseOf(ds: string, rest: string)
    requires ds != [] && AllDigits(ds)
    requires rest == [] || !IsDigit(rest[0])
    ensures ScanBase("GPIOs " + ds + rest) == Some(DecimalValue(ds))
  {
    var g := "GPIOs " + ds + rest;
    assert g[0..5] == "GPIOs" && g[5] == ' ' && g[6..6 + |ds|] == ds;
    assert 6 + |ds| == |g| || g[6 + |ds|] == rest[0];
    ScanBaseAt(g, ds);
  }

  lemma ScanBaseAt(g: string, ds: string)
    requires 6 + |ds| <= |g| && g[0..5] == "GPIOs" && g[5] == ' '
    requires g[6..6 + |ds|] == ds && ds != [] && AllDigits(ds)
    requires 6 + |ds| == |g| || !IsDigit(g[6 + |ds|])
    ensures ScanBase(g) == Some(DecimalValue(ds))
  {
    DecimalAfterSpace(g, 5, ds);
    ScanBaseFromSteps(g, DecimalValue(ds), 6 + |ds|);
  }

  /** `%d` after one white-space character reads the digits that follow it. */
  lemma DecimalAfterSpace(g: string, i: nat, ds: string)
    requires i + 1 + |ds| <= |g| && IsSpace(g[i])
    requires g[i + 1..i + 1 + |ds|] == ds && ds != [] && AllDigits(ds)
    requires i + 1 + |ds| == |g| || !IsDigit(g[i + 1 + |ds|])
    ensures Decimal(g, SkipSpace(g, i)) == Some((DecimalValue(ds), i + 1 + |ds|))
  {
    assert g[i + 1] == ds[0];
    SkipSpaceRun(g, i, 1);
    DecimalOfDigits(g, i + 1, ds);
  }

  /** `ScanBase` put together from its directives. */
  lemma ScanBaseFromSteps(g: string, v: int, e: nat)
    requires Literals(g, 0, "GPIOs") == Some(5) && Decimal(g, SkipSpace(g, 5)) == Some((v, e))
    ensures ScanBase(g) == Some(v)
  {
  }

  // ---------------------------------------------------------------- worked examples

  /** The range `GPIOs 498-505` has base 498. */
  lemma BaseExample()
    ensures ScanBase("GPIOs 498-505") == Some(498)
  {
    ScanBaseAt("GPIOs 498-505", "498");
    assert DecimalValue("4") == 4;
    assert DecimalValue("49") == 49;
  }

  /** The node `aon_gpio_7` is node 7 of its bank. */
  lemma NodeNumExample()
    ensures NodeNum("aon_gpio_7") == 7
  {
    var node := "aon_gpio_7";
    assert node[0..3] == "aon" && node[3] == '_';
    assert node[4..8] == "gpio" && node[8] == '_';
    assert node[9..10] == "7";
    NodeNumAt(node, "aon", "gpio", "7");
  }

  /** On a chip with base 498, the node `aon_gpio_7` sits at GPIO 505. */
  lemma OffsetExample()
    ensures MakePin("aon_gpio_7", "UART_TX", Some(498)).pinNum == Some(505)
  {
    NodeNumExample();
  }

  /**
   * A node token with a third word before the number, such as
   * `aon_gpio_porta_7`, stops the `%d` at `p`: its `node_num` stays 0.
   */
  lemma ThirdFieldExample()
    ensures NodeNum("aon_gpio_porta_7") == 0
  {
    TwoFieldsSkipped("aon_gpio_porta_7", "aon", "gpio");
    DecimalRejects("aon_gpio_porta_7", 9);
  }
}
